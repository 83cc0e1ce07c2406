/** The planning pass over discovered facts, and planning again after a partial creation. */
module IdentityPlans {
  import opened Outcomes
  import opened Identity
  import opened Texts

  // ---- well-formed facts

  predicate Bounded(s: string, maximum: nat) {
    0 < Utf8Length(s) <= maximum && forall c :: c in s ==> '\U{0020}' <= c && c != '\U{007f}'
  }

  predicate IsId(id: int) {
    0 <= id < 0x1_0000_0000
  }

  predicate OptionalId(id: Option<int>) {
    id.Some? ==> IsId(id.value)
  }

  predicate OptionalText(s: Option<string>, maximum: nat) {
    s.Some? ==> Bounded(s.value, maximum)
  }

  predicate AccountOk(a: Account) {
    && Bounded(a.name, 31)
    && (forall id :: id in a.detail.supplementary ==> IsId(id))
    && OptionalId(a.detail.uid) && OptionalId(a.detail.gid)
    && OptionalText(a.detail.home, 4096) && OptionalText(a.detail.shell, 4096)
  }

  predicate GroupOk(g: Group) {
    Bounded(g.name, 31) && OptionalId(g.detail.gid) && forall m :: m in g.detail.members ==> Bounded(m, 31)
  }

  predicate PathOk(p: PathFact) {
    Bounded(p.path, 4096) && (p.kind.Some? ==> p.kind.value in ["regular", "directory", "other"])
  }

  predicate RangeEnd(id: Option<int>) {
    id.Some? ==> 0 < id.value < 0x8000_0000
  }

  predicate WellFormed(facts: Facts) {
    && (forall a :: a in facts.accounts ==> AccountOk(a))
    && (forall g :: g in facts.groups ==> GroupOk(g))
    && (forall id :: id in facts.occupiedUids + facts.occupiedGids ==> IsId(id))
    && PathOk(facts.nologin) && PathOk(facts.nonexistent)
    && RangeEnd(facts.range.uidMin) && RangeEnd(facts.range.uidMax)
    && RangeEnd(facts.range.gidMin) && RangeEnd(facts.range.gidMax)
  }

  // ---- looking facts up by name

  function First<D>(facts: seq<Fact<D>>, name: string): (f: Option<Fact<D>>)
    ensures f.Some? ==> f.value.name == name && f.value in facts
  {
    if facts == [] then None else if facts[0].name == name then Some(facts[0]) else First(facts[1..], name)
  }

  predicate Repeated<D>(facts: seq<Fact<D>>, name: string) {
    exists i, j :: 0 <= i < j < |facts| && facts[i].name == facts[j].name == name
  }

  lemma {:induction false} FirstOfLast<D>(facts: seq<Fact<D>>, last: Fact<D>, name: string)
    ensures First(facts + [last], name) ==
            if First(facts, name).Some? then First(facts, name) else if last.name == name then Some(last) else None
  {
    if facts == [] {
      assert facts + [last] == [last];
    } else {
      assert (facts + [last])[1..] == facts[1..] + [last];
      FirstOfLast(facts[1..], last, name);
    }
  }

  lemma {:induction false} FirstAmong<D>(facts: seq<Fact<D>>, name: string)
    ensures First(facts, name).Some? <==> exists i :: 0 <= i < |facts| && facts[i].name == name
  {
    if facts != [] && facts[0].name != name {
      FirstAmong(facts[1..], name);
      if i :| 0 <= i < |facts| && facts[i].name == name {
        assert facts[1..][i - 1].name == name;
      }
    }
  }

  lemma RepeatedOfLast<D>(facts: seq<Fact<D>>, last: Fact<D>, name: string)
    ensures Repeated(facts + [last], name) <==> Repeated(facts, name) || (last.name == name && First(facts, name).Some?)
  {
    var more := facts + [last];
    FirstAmong(facts, name);
    assert forall i :: 0 <= i < |facts| ==> more[i] == facts[i];
    if i :| last.name == name && 0 <= i < |facts| && facts[i].name == name {
      assert more[i].name == more[|facts|].name == name;
    }
    if i, j :| 0 <= i < j < |facts| && facts[i].name == facts[j].name == name {
      assert more[i].name == more[j].name == name;
    }
  }

  /** The relevant facts by name, and the relevant names observed more than once. */
  method Index<D>(facts: seq<Fact<D>>, relevant: set<string>)
    returns (byName: map<string, Fact<D>>, duplicates: set<string>)
    ensures forall name :: name in byName <==> name in relevant && First(facts, name).Some?
    ensures forall name :: name in byName ==> byName[name] == First(facts, name).value
    ensures forall name :: name in duplicates <==> name in relevant && Repeated(facts, name)
  {
    byName, duplicates := map[], {};
    for k := 0 to |facts|
      invariant forall name :: name in byName <==> name in relevant && First(facts[..k], name).Some?
      invariant forall name :: name in byName ==> byName[name] == First(facts[..k], name).value
      invariant forall name :: name in duplicates <==> name in relevant && Repeated(facts[..k], name)
    {
      var item := facts[k];
      forall name ensures First(facts[..k + 1], name) ==
                          if First(facts[..k], name).Some? then First(facts[..k], name)
                          else if item.name == name then Some(item) else None
                  ensures Repeated(facts[..k + 1], name) <==>
                          Repeated(facts[..k], name) || (item.name == name && First(facts[..k], name).Some?) {
        assert facts[..k + 1] == facts[..k] + [item];
        FirstOfLast(facts[..k], item, name);
        RepeatedOfLast(facts[..k], item, name);
      }
      if item.name !in relevant {
        continue;
      }
      if item.name in byName {
        duplicates := duplicates + {item.name};
      } else {
        byName := byName[item.name := item];
      }
    }
    assert facts[..|facts|] == facts;
  }

  // ---- what is planned and what blocks

  function OperatorOf(s: Scene): Option<Account> {
    if s.config.operator.Some? && s.config.operator.value != "" then
      First(s.facts.accounts, s.config.operator.value)
    else None
  }

  predicate RelevantAccount(s: Scene, name: string) {
    name in SERVICES || (name != "" && s.config.operator == Some(name))
  }

  predicate RelevantGroup(name: string) {
    name in SERVICES || name in ["kvm", "sudo", "lxd"]
  }

  function GroupId(g: Option<Group>): Option<int> {
    if g.Some? then g.value.detail.gid else None
  }

  /** The supplementary groups of a service account: its own, and kvm for the worker. */
  function SupplementaryOf(allocation: Allocation, kvm: int): set<int> {
    {allocation.gid} + if allocation.name == WORKER then {kvm} else {}
  }

  predicate AccountAsPlanned(a: Account, allocation: Allocation, kvm: int) {
    && a.status == Ok && a.origin == Local
    && a.detail.uid == Some(allocation.uid) && a.detail.gid == Some(allocation.gid)
    && a.detail.home == Some(HOME) && a.detail.shell == Some(SHELL)
    && (set id | id in a.detail.supplementary) == SupplementaryOf(allocation, kvm)
  }

  predicate GroupAsPlanned(g: Group, allocation: Allocation) {
    g.status == Ok && g.origin == Local && g.detail.gid == Some(allocation.gid)
  }

  predicate RangeKnown(r: Range) {
    r.status == Ok && r.uidMin.Some? && r.uidMax.Some? && r.gidMin.Some? && r.gidMax.Some?
  }

  predicate RangeExact(r: Range) {
    && RangeKnown(r)
    && r.uidMin.value == ID_MIN && r.uidMax.value == ID_MAX && r.gidMin.value == ID_MIN && r.gidMax.value == ID_MAX
  }

  predicate Seen(account: Option<Account>, group: Option<Group>) {
    account.Some? && group.Some? && account.value.status != Unknown && group.value.status != Unknown
  }

  /** Something of the service exists that is not exactly what the manifest promised. */
  predicate Collides(account: Account, group: Group, mapping: Option<Allocation>, kvm: Option<int>) {
    && (account.status == Ok || group.status == Ok)
    && !(mapping.Some? && kvm.Some?
         && AccountAsPlanned(account, mapping.value, kvm.value) && GroupAsPlanned(group, mapping.value))
  }

  function MappingOf(manifest: Option<seq<Allocation>>, service: string): Option<Allocation> {
    var mapped := Mapped(manifest);
    if mapped.Some? then Item(mapped.value, service) else None
  }

  /** The manifest's ID of a service is taken while the service's own account or group is absent. */
  predicate Taken<D>(facts: seq<Fact<D>>, service: string, id: int, occupied: set<int>) {
    var fact := First(facts, service);
    fact.Some? && fact.value.status == Absent && id in occupied
  }

  predicate Exhaustion(facts: Facts) {
    || |Free(ID_MIN, ID_MAX, facts.occupiedUids + RUNTIME_IDS)| < |SERVICES|
    || |Free(ID_MIN, ID_MAX, facts.occupiedGids + RUNTIME_IDS)| < |SERVICES|
  }

  /** The exact condition under which each issue is reported. */
  predicate Reported(issue: Issue, s: Scene, manifest: Option<seq<Allocation>>) {
    var facts, kvm := s.facts, First(s.facts.groups, "kvm");
    if !WellFormed(facts) then issue == Malformed
    else
      match issue
      case Malformed => false
      case Mapping => manifest.Some? && Mapped(manifest).None?
      case Platform => s.host.osId != Some("ubuntu") || s.host.architecture !in [Some("x86_64"), Some("amd64")]
      case Lifecycle => s.host.osVersionId != Some("26.04") || !s.config.production
      case OperatorMissing => s.config.operator.None?
      case Prerequisite(name, gate) => gate != Verified && (name, gate) in s.prerequisites
      case LxdInUse => facts.lxdNonUse != Verified
      case Duplicate(name) =>
        || (RelevantAccount(s, name) && Repeated(facts.accounts, name))
        || (RelevantGroup(name) && Repeated(facts.groups, name))
      case Undiscovered(service) =>
        service in SERVICES && !Seen(First(facts.accounts, service), First(facts.groups, service))
      case Collision(service) =>
        && service in SERVICES && Seen(First(facts.accounts, service), First(facts.groups, service))
        && Collides(First(facts.accounts, service).value, First(facts.groups, service).value,
                    MappingOf(manifest, service), GroupId(kvm))
      case OperatorNotLocal =>
        && s.config.operator.Some?
        && !(OperatorOf(s).Some? && OperatorOf(s).value.status == Ok && OperatorOf(s).value.origin == Local
             && OperatorOf(s).value.detail.uid != Some(0))
      case OperatorNotSudo =>
        && s.config.operator.Some?
        && !(First(facts.groups, "sudo").Some? && First(facts.groups, "sudo").value.status == Ok
             && GroupId(First(facts.groups, "sudo")).Some? && OperatorOf(s).Some?
             && GroupId(First(facts.groups, "sudo")).value in OperatorOf(s).value.detail.supplementary)
      case KvmUnproven => !(kvm.Some? && kvm.value.status == Ok && kvm.value.origin == Local)
      case NologinUnproven => facts.nologin.status != Ok || facts.nologin.kind != Some("regular")
      case HomePresent => facts.nonexistent.status != Absent
      case RangeUnknown => !RangeKnown(facts.range)
      case RangeForeign => RangeKnown(facts.range) && !RangeExact(facts.range)
      case UidTaken(service) =>
        && service in SERVICES && RangeExact(facts.range) && MappingOf(manifest, service).Some?
        && Taken(facts.accounts, service, MappingOf(manifest, service).value.uid, facts.occupiedUids)
      case GidTaken(service) =>
        && service in SERVICES && RangeExact(facts.range) && MappingOf(manifest, service).Some?
        && Taken(facts.groups, service, MappingOf(manifest, service).value.gid, facts.occupiedGids)
      case Exhausted => RangeExact(facts.range) && manifest.None? && Exhaustion(facts)
  }

  function Uids(allocations: seq<Allocation>): seq<int> {
    seq(|allocations|, i requires 0 <= i < |allocations| => allocations[i].uid)
  }

  function Gids(allocations: seq<Allocation>): seq<int> {
    seq(|allocations|, i requires 0 <= i < |allocations| => allocations[i].gid)
  }

  /** The services in their order, each with the least free IDs. */
  predicate FirstFree(allocations: seq<Allocation>, facts: Facts) {
    && |allocations| == |SERVICES|
    && (forall i :: 0 <= i < |SERVICES| ==> allocations[i].name == SERVICES[i])
    && LeastFree(Uids(allocations), ID_MIN, ID_MAX, facts.occupiedUids + RUNTIME_IDS, |SERVICES|)
    && LeastFree(Gids(allocations), ID_MIN, ID_MAX, facts.occupiedGids + RUNTIME_IDS, |SERVICES|)
  }

  predicate Allocated(allocations: seq<Allocation>, facts: Facts, manifest: Option<seq<Allocation>>) {
    if !WellFormed(facts) || !RangeExact(facts.range) then allocations == []
    else if manifest.Some? then allocations == if Mapped(manifest).Some? then Mapped(manifest).value else []
    else if Exhaustion(facts) then allocations == []
    else FirstFree(allocations, facts)
  }

  function ServiceActions(allocations: seq<Allocation>): seq<Action> {
    if allocations == [] then []
    else
      var last := allocations[|allocations| - 1];
      ServiceActions(allocations[..|allocations| - 1]) + [MakeGroup(last), MakeUser(last, last.name == WORKER)]
  }

  predicate OperatorInLxd(s: Scene) {
    var lxd := First(s.facts.groups, "lxd");
    && lxd.Some? && lxd.value.status == Ok && lxd.value.detail.gid.Some? && OperatorOf(s).Some?
    && lxd.value.detail.gid.value in OperatorOf(s).value.detail.supplementary
  }

  function ActionsOf(s: Scene, allocations: seq<Allocation>): seq<Action> {
    ServiceActions(allocations) + if OperatorInLxd(s) then [LeaveLxd] else []
  }

  ghost predicate Unblocked(s: Scene, manifest: Option<seq<Allocation>>) {
    forall issue :: !Reported(issue, s, manifest)
  }

  /** What a planning pass ends in. An unobserved lxd group is not an issue: it fails an assertion instead. */
  ghost predicate PlanOf(s: Scene, manifest: Option<seq<Allocation>>, r: Result<Plan, Mishap>) {
    match r
    case Done(plan) =>
      && (forall issue :: issue in plan.issues <==> Reported(issue, s, manifest))
      && Allocated(plan.allocations, s.facts, manifest)
      && plan.actions == (if plan.Blocking() then [] else ActionsOf(s, plan.allocations))
      && (plan.Blocking() || First(s.facts.groups, "lxd").Some?)
    case Raised(_) => Unblocked(s, manifest) && First(s.facts.groups, "lxd").None?
    case Killed => false
  }

  // ---- the planning pass

  method CheckHost(s: Scene, manifest: Option<seq<Allocation>>, refused: bool) returns (issues: set<Issue>)
    requires WellFormed(s.facts) && (refused <==> manifest.Some? && Mapped(manifest).None?)
    ensures forall x :: x in issues <==>
              (x.Mapping? || x.Platform? || x.Lifecycle? || x.OperatorMissing? || x.Prerequisite? || x.LxdInUse?)
              && Reported(x, s, manifest)
  {
    hide WellFormed, First, Mapped;
    issues := {};
    if refused {
      issues := issues + {Mapping};
    }
    if s.host.osId != Some("ubuntu") || s.host.architecture !in [Some("x86_64"), Some("amd64")] {
      issues := issues + {Platform};
    }
    if s.host.osVersionId != Some("26.04") || !s.config.production {
      issues := issues + {Lifecycle};
    }
    if s.config.operator.None? {
      issues := issues + {OperatorMissing};
    }
    if s.facts.lxdNonUse != Verified {
      issues := issues + {LxdInUse};
    }
    for k := 0 to |s.prerequisites|
      invariant forall x :: x in issues <==>
                  || ((x.Mapping? || x.Platform? || x.Lifecycle? || x.OperatorMissing? || x.LxdInUse?)
                      && Reported(x, s, manifest))
                  || (x.Prerequisite? && x.gate != Verified && (x.name, x.gate) in s.prerequisites[..k])
    {
      var (name, gate) := s.prerequisites[k];
      assert s.prerequisites[..k + 1] == s.prerequisites[..k] + [(name, gate)];
      if gate != Verified {
        issues := issues + {Prerequisite(name, gate)};
      }
    }
    assert s.prerequisites[..|s.prerequisites|] == s.prerequisites;
  }

  method CheckServices(s: Scene, manifest: Option<seq<Allocation>>, prior: Option<seq<Allocation>>,
                       accounts: map<string, Account>, groups: map<string, Group>)
    returns (issues: set<Issue>)
    requires WellFormed(s.facts) && Observed(s, accounts, groups) && prior == Mapped(manifest)
    ensures forall x :: x in issues <==> (x.Undiscovered? || x.Collision?) && Reported(x, s, manifest)
  {
    hide WellFormed, AccountAsPlanned, Mapped;
    issues := {};
    var kvm := Get(groups, "kvm");
    for k := 0 to |SERVICES|
      invariant forall x :: x in issues <==>
                  (x.Undiscovered? || x.Collision?) && x.service in SERVICES[..k] && Reported(x, s, manifest)
    {
      var service := SERVICES[k];
      assert SERVICES[..k + 1] == SERVICES[..k] + [service];
      var account, group := Get(accounts, service), Get(groups, service);
      if !Seen(account, group) {
        issues := issues + {Undiscovered(service)};
      } else if account.value.status == Ok || group.value.status == Ok {
        var mapping := if prior.Some? then Item(prior.value, service) else None;
        if Collides(account.value, group.value, mapping, GroupId(kvm)) {
          issues := issues + {Collision(service)};
        }
      }
    }
    assert SERVICES[..|SERVICES|] == SERVICES;
  }

  function Get<D>(byName: map<string, Fact<D>>, name: string): Option<Fact<D>> {
    if name in byName then Some(byName[name]) else None
  }

  /** The two dictionaries hold the first fact of every relevant name. */
  ghost predicate Observed(s: Scene, accounts: map<string, Account>, groups: map<string, Group>) {
    && "" !in accounts
    && (forall name :: RelevantAccount(s, name) ==> Get(accounts, name) == First(s.facts.accounts, name))
    && (forall name :: RelevantGroup(name) ==> Get(groups, name) == First(s.facts.groups, name))
  }

  method CheckOperator(s: Scene, manifest: Option<seq<Allocation>>, operator: Option<Account>,
                       groups: map<string, Group>)
    returns (issues: set<Issue>)
    requires WellFormed(s.facts) && operator == OperatorOf(s)
    requires forall name :: RelevantGroup(name) ==> Get(groups, name) == First(s.facts.groups, name)
    ensures forall x :: x in issues <==>
              (x.OperatorNotLocal? || x.OperatorNotSudo?) && Reported(x, s, manifest)
  {
    hide WellFormed, First, Mapped;
    issues := {};
    var sudo := Get(groups, "sudo");
    if s.config.operator.Some? {
      if operator.None? || operator.value.status != Ok || operator.value.origin != Local
         || operator.value.detail.uid == Some(0) {
        issues := issues + {OperatorNotLocal};
      }
      if sudo.None? || sudo.value.status != Ok || sudo.value.detail.gid.None? || operator.None?
         || sudo.value.detail.gid.value !in operator.value.detail.supplementary {
        issues := issues + {OperatorNotSudo};
      }
    }
  }

  method CheckHostFiles(s: Scene, manifest: Option<seq<Allocation>>, kvm: Option<Group>) returns (issues: set<Issue>)
    requires WellFormed(s.facts) && kvm == First(s.facts.groups, "kvm")
    ensures forall x :: x in issues <==>
              (x.KvmUnproven? || x.NologinUnproven? || x.HomePresent?) && Reported(x, s, manifest)
  {
    hide WellFormed, First, Mapped;
    issues := {};
    if kvm.None? || kvm.value.status != Ok || kvm.value.origin != Local {
      issues := issues + {KvmUnproven};
    }
    if s.facts.nologin.status != Ok || s.facts.nologin.kind != Some("regular") {
      issues := issues + {NologinUnproven};
    }
    if s.facts.nonexistent.status != Absent {
      issues := issues + {HomePresent};
    }
  }

  /** The IDs to use, from the manifest or the first that are free, and what is wrong with them. */
  method ChooseIds(s: Scene, manifest: Option<seq<Allocation>>, prior: Option<seq<Allocation>>,
                   accounts: map<string, Account>, groups: map<string, Group>)
    returns (allocations: seq<Allocation>, issues: set<Issue>)
    requires WellFormed(s.facts) && Observed(s, accounts, groups) && prior == Mapped(manifest)
    ensures Allocated(allocations, s.facts, manifest)
    ensures forall x :: x in issues <==>
              (x.RangeUnknown? || x.RangeForeign? || x.UidTaken? || x.GidTaken? || x.Exhausted?)
              && Reported(x, s, manifest)
  {
    hide WellFormed, First, Mapped, Item;
    NoManifest();
    allocations, issues := [], {};
    if !RangeKnown(s.facts.range) {
      issues := {RangeUnknown};
    } else if !RangeExact(s.facts.range) {
      issues := {RangeForeign};
    } else if prior.Some? {
      allocations := prior.value;
      MappedOrder(manifest, 0);
      forall item | item in allocations ensures item.name in SERVICES {
        var k :| 0 <= k < |allocations| && allocations[k] == item;
        MappedOrder(manifest, k);
      }
      issues := CheckVacancies(s, allocations, accounts, groups);
      forall x ensures x in issues <==> (x.UidTaken? || x.GidTaken?) && Reported(x, s, manifest) {
        TakesReported(x, s, manifest);
      }
    } else if manifest.None? {
      var free := FirstFreeIds(s.facts);
      if free.None? {
        issues := {Exhausted};
      } else {
        allocations := free.value;
      }
    }
  }

  method FirstFreeIds(facts: Facts) returns (allocations: Option<seq<Allocation>>)
    ensures allocations.None? <==> Exhaustion(facts)
    ensures allocations.Some? ==> FirstFree(allocations.value, facts)
  {
    hide LeastFree, Free;
    var uids := Allocate(ID_MIN, ID_MAX, facts.occupiedUids + RUNTIME_IDS, |SERVICES|);
    var gids := Allocate(ID_MIN, ID_MAX, facts.occupiedGids + RUNTIME_IDS, |SERVICES|);
    if uids.None? || gids.None? {
      return None;
    }
    LeastFreeLength(uids.value, ID_MIN, ID_MAX, facts.occupiedUids + RUNTIME_IDS, |SERVICES|);
    LeastFreeLength(gids.value, ID_MIN, ID_MAX, facts.occupiedGids + RUNTIME_IDS, |SERVICES|);
    var chosen :=
          seq(|SERVICES|, i requires 0 <= i < |SERVICES| => Allocation(SERVICES[i], uids.value[i], gids.value[i]));
    assert Uids(chosen) == uids.value && Gids(chosen) == gids.value;
    return Some(chosen);
  }

  lemma LeastFreeLength(ids: seq<int>, first: int, last: int, occupied: set<int>, count: nat)
    requires LeastFree(ids, first, last, occupied, count)
    ensures |ids| == count
  {
  }

  lemma NoManifest()
    ensures Mapped(None) == None
  {
  }

  lemma MappedOrder(manifest: Option<seq<Allocation>>, k: nat)
    requires Mapped(manifest).Some? && k < |SERVICES|
    ensures var mapped := Mapped(manifest).value;
            && |mapped| == |SERVICES| && mapped[k].name == SERVICES[k]
            && MappingOf(manifest, SERVICES[k]) == Some(mapped[k])
  {
    var value, mapped := manifest.value, Mapped(manifest).value;
    forall i | 0 <= i < |SERVICES| ensures mapped[i].name == SERVICES[i] {
      ItemAmong(value, SERVICES[i]);
    }
    ItemAt(mapped, k);
  }

  /** One of the manifest's IDs is taken. */
  predicate Takes(x: Issue, facts: Facts, item: Allocation) {
    || (x == UidTaken(item.name) && Taken(facts.accounts, item.name, item.uid, facts.occupiedUids))
    || (x == GidTaken(item.name) && Taken(facts.groups, item.name, item.gid, facts.occupiedGids))
  }

  lemma TakesReported(x: Issue, s: Scene, manifest: Option<seq<Allocation>>)
    requires WellFormed(s.facts) && RangeExact(s.facts.range) && Mapped(manifest).Some?
    ensures (exists i :: 0 <= i < |SERVICES| && Takes(x, s.facts, Mapped(manifest).value[i]))
       <==> (x.UidTaken? || x.GidTaken?) && Reported(x, s, manifest)
  {
    hide WellFormed, First;
    MappedOrder(manifest, 0);
    MappedOrder(manifest, 1);
    MappedOrder(manifest, 2);
    hide Mapped, Item, MappingOf, Taken;
    var mapped := Mapped(manifest).value;
    if (x.UidTaken? || x.GidTaken?) && Reported(x, s, manifest) {
      var i :| 0 <= i < |SERVICES| && SERVICES[i] == x.service;
      assert Takes(x, s.facts, mapped[i]);
    }
  }

  method CheckVacancies(s: Scene, allocations: seq<Allocation>, accounts: map<string, Account>,
                        groups: map<string, Group>)
    returns (issues: set<Issue>)
    requires Observed(s, accounts, groups) && forall item :: item in allocations ==> item.name in SERVICES
    ensures forall x :: x in issues <==> exists i :: 0 <= i < |allocations| && Takes(x, s.facts, allocations[i])
  {
    hide First;
    issues := {};
    for k := 0 to |allocations|
      invariant forall x :: x in issues <==> exists i :: 0 <= i < k && Takes(x, s.facts, allocations[i])
    {
      var item := allocations[k];
      var account, group := Get(accounts, item.name), Get(groups, item.name);
      if account.Some? && account.value.status == Absent && item.uid in s.facts.occupiedUids {
        issues := issues + {UidTaken(item.name)};
      }
      if group.Some? && group.value.status == Absent && item.gid in s.facts.occupiedGids {
        issues := issues + {GidTaken(item.name)};
      }
    }
  }

  function RelevantAccounts(s: Scene): set<string> {
    (set name | name in SERVICES) +
    (if s.config.operator.Some? && s.config.operator.value != "" then {s.config.operator.value} else {})
  }

  function RelevantGroups(): set<string> {
    (set name | name in SERVICES) + {"kvm", "sudo", "lxd"}
  }

  lemma RelevantSets(s: Scene)
    ensures "" !in RelevantAccounts(s)
    ensures forall name :: name in RelevantAccounts(s) <==> RelevantAccount(s, name)
    ensures forall name :: name in RelevantGroups() <==> RelevantGroup(name)
  {
  }

  /** The dictionaries of relevant facts, and the names observed twice. */
  method Survey(s: Scene, manifest: Option<seq<Allocation>>)
    returns (accounts: map<string, Account>, groups: map<string, Group>, issues: set<Issue>)
    requires WellFormed(s.facts)
    ensures Observed(s, accounts, groups)
    ensures forall x :: x in issues <==> x.Duplicate? && Reported(x, s, manifest)
  {
    hide WellFormed, First, Repeated, Reported;
    RelevantSets(s);
    hide RelevantAccount, RelevantGroup, RelevantAccounts, RelevantGroups;
    var twiceAccounts, twiceGroups;
    accounts, twiceAccounts := Index(s.facts.accounts, RelevantAccounts(s));
    groups, twiceGroups := Index(s.facts.groups, RelevantGroups());
    issues := set name | name in twiceAccounts + twiceGroups :: Duplicate(name);
    DuplicatesReported(s, manifest, twiceAccounts, twiceGroups, issues);
  }

  method FindIssues(s: Scene, manifest: Option<seq<Allocation>>, accounts: map<string, Account>,
                    groups: map<string, Group>, duplicates: set<Issue>)
    returns (allocations: seq<Allocation>, issues: set<Issue>)
    requires WellFormed(s.facts) && Observed(s, accounts, groups)
    requires forall x :: x in duplicates <==> x.Duplicate? && Reported(x, s, manifest)
    ensures forall x :: x in issues <==> Reported(x, s, manifest)
    ensures Allocated(allocations, s.facts, manifest)
  {
    NotMalformed(s, manifest);
    OperatorObserved(s, accounts, groups);
    hide WellFormed, First, Mapped, Reported, Allocated, Observed;
    var prior, refused := ManifestMapping(manifest);
    var hostIssues := CheckHost(s, manifest, refused);
    var serviceIssues := CheckServices(s, manifest, prior, accounts, groups);
    var operatorIssues := CheckOperator(s, manifest, OperatorIn(s, accounts), groups);
    var fileIssues := CheckHostFiles(s, manifest, Get(groups, "kvm"));
    var idIssues;
    allocations, idIssues := ChooseIds(s, manifest, prior, accounts, groups);
    issues := hostIssues + duplicates + serviceIssues + operatorIssues + fileIssues + idIssues;
  }

  function OperatorIn(s: Scene, accounts: map<string, Account>): Option<Account> {
    Get(accounts, if s.config.operator.Some? then s.config.operator.value else "")
  }

  lemma OperatorObserved(s: Scene, accounts: map<string, Account>, groups: map<string, Group>)
    requires Observed(s, accounts, groups)
    ensures OperatorIn(s, accounts) == OperatorOf(s)
    ensures forall name :: RelevantGroup(name) ==> Get(groups, name) == First(s.facts.groups, name)
  {
  }

  method BuildIdentityPlan(s: Scene, manifest: Option<seq<Allocation>>) returns (r: Result<Plan, Mishap>)
    ensures PlanOf(s, manifest, r)
  {
    hide Mapped, First, Reported;
    if !WellFormed(s.facts) {
      OnlyMalformed(s, manifest);
      return Done(Plan([], [], {Malformed}));
    }
    var accounts, groups, duplicates := Survey(s, manifest);
    var allocations, issues := FindIssues(s, manifest, accounts, groups, duplicates);
    OperatorObserved(s, accounts, groups);
    hide WellFormed, Observed, Allocated;
    if issues != {} {
      return Done(Plan(allocations, [], issues));
    }
    assert Unblocked(s, manifest);
    OperatorConfigured(s, manifest);
    var operator, lxd := OperatorIn(s, accounts), Get(groups, "lxd");
    if lxd.None? {
      return Raised(AssertionFailed);
    }
    var actions := ServiceSteps(allocations);
    if lxd.value.status == Ok && lxd.value.detail.gid.Some?
       && lxd.value.detail.gid.value in operator.value.detail.supplementary {
      actions := actions + [LeaveLxd];
    }
    return Done(Plan(allocations, actions, issues));
  }

  lemma OnlyMalformed(s: Scene, manifest: Option<seq<Allocation>>)
    requires !WellFormed(s.facts)
    ensures forall x :: Reported(x, s, manifest) <==> x == Malformed
  {
  }

  lemma NotMalformed(s: Scene, manifest: Option<seq<Allocation>>)
    requires WellFormed(s.facts)
    ensures !Reported(Malformed, s, manifest)
  {
  }

  lemma DuplicatesReported(s: Scene, manifest: Option<seq<Allocation>>, accounts: set<string>, groups: set<string>,
                           duplicates: set<Issue>)
    requires WellFormed(s.facts) && duplicates == set name | name in accounts + groups :: Duplicate(name)
    requires forall name :: name in accounts <==> RelevantAccount(s, name) && Repeated(s.facts.accounts, name)
    requires forall name :: name in groups <==> RelevantGroup(name) && Repeated(s.facts.groups, name)
    ensures forall x :: x in duplicates <==> x.Duplicate? && Reported(x, s, manifest)
  {
    hide WellFormed, Repeated, Mapped, First;
  }

  lemma OperatorConfigured(s: Scene, manifest: Option<seq<Allocation>>)
    requires Unblocked(s, manifest)
    ensures OperatorOf(s).Some?
  {
    assert !Reported(OperatorMissing, s, manifest) && !Reported(OperatorNotLocal, s, manifest);
    assert !Reported(Malformed, s, manifest);
  }

  method ServiceSteps(allocations: seq<Allocation>) returns (actions: seq<Action>)
    ensures actions == ServiceActions(allocations)
  {
    actions := [];
    for k := 0 to |allocations|
      invariant actions == ServiceActions(allocations[..k])
    {
      var item := allocations[k];
      assert allocations[..k + 1][..k] == allocations[..k];
      actions := actions + [MakeGroup(item), MakeUser(item, item.name == WORKER)];
    }
    assert allocations[..|allocations|] == allocations;
  }

  // ---- planning again after some of the services were created

  /**
   * The facts after the accounts `users` and the groups `groups` were created exactly as planned, and nothing else
   * changed.
   */
  ghost predicate Created(before: Facts, after: Facts, allocations: seq<Allocation>, users: set<string>,
                          groups: set<string>) {
    && (forall i :: 0 <= i < |after.accounts| ==> AccountOk(after.accounts[i]))
    && (forall i :: 0 <= i < |after.groups| ==> GroupOk(after.groups[i]))
    && UsersCreated(before.accounts, after.accounts, allocations, users, GroupId(First(before.groups, "kvm")))
    && GroupsCreated(before.groups, after.groups, allocations, groups)
    && after.occupiedUids == before.occupiedUids + (set item | item in allocations && item.name in users :: item.uid)
    && after.occupiedGids == before.occupiedGids + (set item | item in allocations && item.name in groups :: item.gid)
    && after.range == before.range && after.nologin == before.nologin && after.nonexistent == before.nonexistent
    && after.lxdNonUse == before.lxdNonUse
  }

  ghost predicate UsersCreated(before: seq<Account>, after: seq<Account>, allocations: seq<Allocation>,
                               users: set<string>, kvm: Option<int>) {
    |after| == |before| && forall i :: 0 <= i < |after| ==> UserStep(before[i], after[i], allocations, users, kvm)
  }

  predicate UserStep(before: Account, after: Account, allocations: seq<Allocation>, users: set<string>,
                     kvm: Option<int>) {
    var item := Item(allocations, before.name);
    && after.name == before.name
    && if after.name in users then
         item.Some? && AccountAsPlanned(after, item.value, if kvm.Some? then kvm.value else item.value.gid)
       else after == before
  }

  ghost predicate GroupsCreated(before: seq<Group>, after: seq<Group>, allocations: seq<Allocation>,
                                groups: set<string>) {
    |after| == |before| && forall i :: 0 <= i < |after| ==> GroupStep(before[i], after[i], allocations, groups)
  }

  predicate GroupStep(before: Group, after: Group, allocations: seq<Allocation>, groups: set<string>) {
    var item := Item(allocations, before.name);
    && after.name == before.name
    && if after.name in groups then item.Some? && GroupAsPlanned(after, item.value) else GroupKept(before, after)
  }

  /** A group that is not created keeps everything but its members. */
  predicate GroupKept(before: Group, after: Group) {
    before.name == after.name && before.status == after.status && before.origin == after.origin
    && before.detail.gid == after.detail.gid
  }

  lemma {:induction false} UserLookup(
      before: seq<Account>, after: seq<Account>, allocations: seq<Allocation>, users: set<string>, kvm: Option<int>,
      name: string)
    requires UsersCreated(before, after, allocations, users, kvm)
    ensures First(after, name).Some? <==> First(before, name).Some?
    ensures First(after, name).Some? ==>
              UserStep(First(before, name).value, First(after, name).value, allocations, users, kvm)
  {
    hide AccountAsPlanned, Item;
    if after != [] && after[0].name != name {
      UserLookup(before[1..], after[1..], allocations, users, kvm, name);
    }
  }

  lemma {:induction false} GroupLookup(
      before: seq<Group>, after: seq<Group>, allocations: seq<Allocation>, groups: set<string>, name: string)
    requires GroupsCreated(before, after, allocations, groups)
    ensures First(after, name).Some? <==> First(before, name).Some?
    ensures First(after, name).Some? ==>
              GroupStep(First(before, name).value, First(after, name).value, allocations, groups)
  {
    hide GroupAsPlanned, Item, GroupKept;
    if after != [] && after[0].name != name {
      GroupLookup(before[1..], after[1..], allocations, groups, name);
    }
  }

  lemma SameRepeats<D>(before: seq<Fact<D>>, after: seq<Fact<D>>, name: string)
    requires |before| == |after| && forall i :: 0 <= i < |after| ==> after[i].name == before[i].name
    ensures Repeated(after, name) <==> Repeated(before, name)
  {
  }

  /** The IDs of a first-free plan are distinct, and pass the manifest check unchanged. */
  lemma FirstFreeMapped(allocations: seq<Allocation>, facts: Facts)
    requires FirstFree(allocations, facts)
    ensures Mapped(Some(allocations)) == Some(allocations)
    ensures forall i :: 0 <= i < |SERVICES| ==> Item(allocations, SERVICES[i]) == Some(allocations[i])
    ensures forall item :: item in allocations ==> item.uid !in facts.occupiedUids && item.gid !in facts.occupiedGids
    ensures forall i, j :: 0 <= i < j < |allocations| ==> Apart(allocations[i], allocations[j])
  {
    var uids, gids := Uids(allocations), Gids(allocations);
    forall i | 0 <= i < |allocations| ensures ValidItem(allocations[i])
        && allocations[i].uid !in facts.occupiedUids && allocations[i].gid !in facts.occupiedGids {
      assert uids[i] in uids && gids[i] in gids;
    }
    forall i, j | 0 <= i < j < |allocations| ensures Apart(allocations[i], allocations[j]) {
      assert uids[i] < uids[j] && gids[i] < gids[j];
    }
    MappedUnchanged(allocations);
  }

  /** `plan` was first-free and unblocked, and `after` is the host once part of it has been carried out. */
  ghost predicate PartlyDone(before: Scene, plan: Plan, after: Scene, users: set<string>, groups: set<string>) {
    && PlanOf(before, None, Done(plan)) && !plan.Blocking()
    && (forall name :: name in users ==> name in SERVICES)
    && (forall name :: name in groups ==> name in SERVICES)
    && after.config == before.config && after.host == before.host && after.prerequisites == before.prerequisites
    && Created(before.facts, after.facts, plan.allocations, users, groups)
  }

  lemma RangeClean(s: Scene, manifest: Option<seq<Allocation>>)
    requires Unblocked(s, manifest)
    ensures WellFormed(s.facts) && RangeExact(s.facts.range)
    ensures manifest.None? ==> !Exhaustion(s.facts)
  {
    hide First, Mapped, Exhaustion;
    assert !Reported(Malformed, s, manifest) && !Reported(RangeUnknown, s, manifest)
           && !Reported(RangeForeign, s, manifest);
    assert !Reported(Exhausted, s, manifest);
  }

  lemma ServiceClean(s: Scene, service: string)
    requires Unblocked(s, None) && WellFormed(s.facts) && service in SERVICES
    ensures var account, group := First(s.facts.accounts, service), First(s.facts.groups, service);
            account.Some? && group.Some? && account.value.status == Absent && group.value.status == Absent
  {
    hide First, Mapped, WellFormed, RangeExact, AccountAsPlanned, Exhaustion, Repeated;
    NoManifest();
    assert !Reported(Undiscovered(service), s, None) && !Reported(Collision(service), s, None);
  }

  /** What no issue at all means for a first-free plan. */
  lemma CleanStart(s: Scene, plan: Plan)
    requires PlanOf(s, None, Done(plan)) && !plan.Blocking()
    ensures Unblocked(s, None) && WellFormed(s.facts) && FirstFree(plan.allocations, s.facts)
  {
    hide Mapped, First, FirstFree, Exhaustion, Reported, WellFormed, RangeExact;
    assert Unblocked(s, None);
    RangeClean(s, None);
    NoManifest();
  }

  lemma OperatorIsNoService(s: Scene)
    requires Unblocked(s, None) && WellFormed(s.facts)
    ensures OperatorOf(s).Some? && s.config.operator.value !in SERVICES
  {
    hide First, Mapped, WellFormed, RangeExact, AccountAsPlanned, Exhaustion, Repeated;
    OperatorConfigured(s, None);
    assert !Reported(OperatorNotLocal, s, None);
    hide Reported, Unblocked;
    if s.config.operator.value in SERVICES { ServiceClean(s, s.config.operator.value); }
  }

  /** The operator is no service, so nothing about it changes. */
  lemma SameOperator(before: Scene, plan: Plan, after: Scene, users: set<string>, groups: set<string>)
    requires PartlyDone(before, plan, after, users, groups)
    ensures OperatorOf(after) == OperatorOf(before)
  {
    CleanStart(before, plan);
    OperatorIsNoService(before);
    hide AccountAsPlanned, WellFormed, PlanOf, Unblocked, GroupsCreated, UsersCreated, FirstFree, First, Item;
    UserLookup(before.facts.accounts, after.facts.accounts, plan.allocations, users,
               GroupId(First(before.facts.groups, "kvm")), before.config.operator.value);
  }

  lemma SameGroup(before: Scene, plan: Plan, after: Scene, users: set<string>, groups: set<string>, name: string)
    requires PartlyDone(before, plan, after, users, groups) && name !in SERVICES
    ensures First(after.facts.groups, name).Some? <==> First(before.facts.groups, name).Some?
    ensures First(after.facts.groups, name).Some? ==>
              GroupKept(First(before.facts.groups, name).value, First(after.facts.groups, name).value)
  {
    hide Unblocked, Mapped, Reported, UsersCreated, GroupsCreated, WellFormed, Allocated, PlanOf, First, Item;
    GroupLookup(before.facts.groups, after.facts.groups, plan.allocations, groups, name);
  }

  lemma StillWellFormed(before: Scene, plan: Plan, after: Scene, users: set<string>, groups: set<string>)
    requires PartlyDone(before, plan, after, users, groups)
    ensures WellFormed(after.facts)
  {
    CleanStart(before, plan);
    FirstFreeMapped(plan.allocations, before.facts);
  }

  predicate AboutHost(x: Issue) {
    x.Platform? || x.Lifecycle? || x.OperatorMissing? || x.Prerequisite? || x.LxdInUse? || x.NologinUnproven?
    || x.HomePresent?
    || x.RangeUnknown? || x.RangeForeign? || x.Malformed? || x.Mapping? || x.Exhausted?
  }

  lemma HostStillFine(before: Scene, plan: Plan, after: Scene, users: set<string>, groups: set<string>, x: Issue)
    requires PartlyDone(before, plan, after, users, groups) && AboutHost(x)
    ensures !Reported(x, after, Some(plan.allocations))
  {
    CleanStart(before, plan);
    FirstFreeMapped(plan.allocations, before.facts);
    StillWellFormed(before, plan, after, users, groups);
    assert !Reported(x, before, None);
    hide WellFormed, PlanOf, Unblocked, GroupsCreated, UsersCreated, FirstFree, First, Item, Mapped, Exhaustion,
         Repeated, AccountAsPlanned;
  }

  lemma NamesStillUnique(before: Scene, plan: Plan, after: Scene, users: set<string>, groups: set<string>, x: Issue)
    requires PartlyDone(before, plan, after, users, groups) && x.Duplicate?
    ensures !Reported(x, after, Some(plan.allocations))
  {
    hide First, Item, Mapped, Repeated, AccountAsPlanned, LeastFree;
    CleanStart(before, plan);
    StillWellFormed(before, plan, after, users, groups);
    SameRepeats(before.facts.accounts, after.facts.accounts, x.name);
    SameRepeats(before.facts.groups, after.facts.groups, x.name);
    assert !Reported(x, before, None);
    hide WellFormed, PlanOf, Unblocked, GroupsCreated, UsersCreated, FirstFree, Exhaustion;
  }

  lemma OthersStillFine(before: Scene, plan: Plan, after: Scene, users: set<string>, groups: set<string>, x: Issue)
    requires PartlyDone(before, plan, after, users, groups)
             && (x.OperatorNotLocal? || x.OperatorNotSudo? || x.KvmUnproven?)
    ensures !Reported(x, after, Some(plan.allocations))
  {
    hide First, Item, Mapped, Repeated, AccountAsPlanned, LeastFree, OperatorOf, Created;
    CleanStart(before, plan);
    StillWellFormed(before, plan, after, users, groups);
    SameOperator(before, plan, after, users, groups);
    SameGroup(before, plan, after, users, groups, "kvm");
    SameGroup(before, plan, after, users, groups, "sudo");
    assert !Reported(x, before, None);
    hide WellFormed, PlanOf, Unblocked, FirstFree, Exhaustion;
  }

  /** A service that was created in part, or whole where the group id of kvm is not known. */
  predicate Torn(s: Scene, users: set<string>, groups: set<string>, service: string) {
    && service in users + groups
    && !(service in users && service in groups && GroupId(First(s.facts.groups, "kvm")).Some?)
  }

  /** What is found of a service once part of the plan has been carried out. */
  lemma ServiceAfter(before: Scene, plan: Plan, after: Scene, users: set<string>, groups: set<string>, k: nat)
    requires PartlyDone(before, plan, after, users, groups) && k < |SERVICES| == |plan.allocations|
    ensures var service, item, kvm := SERVICES[k], plan.allocations[k], GroupId(First(before.facts.groups, "kvm"));
            var account, group := First(after.facts.accounts, service), First(after.facts.groups, service);
            && account.Some? && group.Some?
            && (if service in users
                  then AccountAsPlanned(account.value, item, if kvm.Some? then kvm.value else item.gid)
                else account.value.status == Absent)
            && (if service in groups then GroupAsPlanned(group.value, item) else group.value.status == Absent)
  {
    CleanStart(before, plan);
    FirstFreeMapped(plan.allocations, before.facts);
    var service := SERVICES[k];
    ServiceClean(before, service);
    hide WellFormed, PlanOf, Unblocked, GroupsCreated, UsersCreated, FirstFree, First, Item, Mapped, AccountAsPlanned;
    UserLookup(before.facts.accounts, after.facts.accounts, plan.allocations, users,
               GroupId(First(before.facts.groups, "kvm")), service);
    GroupLookup(before.facts.groups, after.facts.groups, plan.allocations, groups, service);
  }

  lemma PlanLength(before: Scene, plan: Plan)
    requires PlanOf(before, None, Done(plan)) && !plan.Blocking()
    ensures |plan.allocations| == |SERVICES|
  {
    CleanStart(before, plan);
  }

  lemma NotTaken(before: Scene, plan: Plan, after: Scene, users: set<string>, groups: set<string>, k: nat)
    requires PartlyDone(before, plan, after, users, groups) && k < |SERVICES| == |plan.allocations|
    ensures var item := plan.allocations[k];
            && item.name == SERVICES[k]
            && (item.uid in after.facts.occupiedUids ==> SERVICES[k] in users)
            && (item.gid in after.facts.occupiedGids ==> SERVICES[k] in groups)
  {
    CleanStart(before, plan);
    FirstFreeMapped(plan.allocations, before.facts);
    hide WellFormed, PlanOf, Unblocked, GroupsCreated, UsersCreated, First, Item, Mapped, LeastFree;
  }

  lemma ServiceStillFine(before: Scene, plan: Plan, after: Scene, users: set<string>, groups: set<string>, k: nat)
    requires PartlyDone(before, plan, after, users, groups) && k < |SERVICES|
    ensures var service, manifest := SERVICES[k], Some(plan.allocations);
            && !Reported(Undiscovered(service), after, manifest)
            && (Reported(Collision(service), after, manifest) <==> Torn(before, users, groups, service))
  {
    hide WellFormed, PlanOf, Unblocked, Created, First, Item, Mapped, AccountAsPlanned, GroupAsPlanned;
    PlanLength(before, plan);
    CleanStart(before, plan);
    FirstFreeMapped(plan.allocations, before.facts);
    StillWellFormed(before, plan, after, users, groups);
    SameGroup(before, plan, after, users, groups, "kvm");
    KvmKept(before, plan, after, users, groups);
    hide PartlyDone, FirstFree;
    ServiceAfter(before, plan, after, users, groups, k);
    PlannedIsThere();
  }

  lemma IdsStillFine(before: Scene, plan: Plan, after: Scene, users: set<string>, groups: set<string>, k: nat)
    requires PartlyDone(before, plan, after, users, groups) && k < |SERVICES|
    ensures var service, manifest := SERVICES[k], Some(plan.allocations);
            !Reported(UidTaken(service), after, manifest) && !Reported(GidTaken(service), after, manifest)
  {
    hide WellFormed, PlanOf, Unblocked, Created, First, Item, Mapped, AccountAsPlanned, GroupAsPlanned;
    PlanLength(before, plan);
    CleanStart(before, plan);
    FirstFreeMapped(plan.allocations, before.facts);
    StillWellFormed(before, plan, after, users, groups);
    hide PartlyDone, FirstFree;
    ServiceAfter(before, plan, after, users, groups, k);
    NotTaken(before, plan, after, users, groups, k);
    PlannedIsThere();
  }

  lemma KvmKept(before: Scene, plan: Plan, after: Scene, users: set<string>, groups: set<string>)
    requires PartlyDone(before, plan, after, users, groups)
    ensures GroupId(First(after.facts.groups, "kvm")) == GroupId(First(before.facts.groups, "kvm"))
  {
    SameGroup(before, plan, after, users, groups, "kvm");
  }

  lemma PlannedIsThere()
    ensures forall a: Account, item: Allocation, kvm: int :: AccountAsPlanned(a, item, kvm) ==> a.status == Ok
    ensures forall g: Group, item: Allocation :: GroupAsPlanned(g, item) ==> g.status == Ok
  {
  }

  lemma OnlyCollisions(before: Scene, plan: Plan, after: Scene, users: set<string>, groups: set<string>, x: Issue)
    requires PartlyDone(before, plan, after, users, groups)
    ensures Reported(x, after, Some(plan.allocations)) <==>
              x.Collision? && x.service in SERVICES && Torn(before, users, groups, x.service)
  {
    StillWellFormed(before, plan, after, users, groups);
    hide PartlyDone, WellFormed, First, Mapped, Torn, RangeExact, Collides, AccountAsPlanned;
    if AboutHost(x) {
      HostStillFine(before, plan, after, users, groups, x);
    } else if x.Duplicate? {
      NamesStillUnique(before, plan, after, users, groups, x);
    } else if x.OperatorNotLocal? || x.OperatorNotSudo? || x.KvmUnproven? {
      OthersStillFine(before, plan, after, users, groups, x);
    } else if x.service in SERVICES {
      var k :| 0 <= k < |SERVICES| && SERVICES[k] == x.service;
      ServiceStillFine(before, plan, after, users, groups, k);
      IdsStillFine(before, plan, after, users, groups, k);
    }
  }

  lemma SameEnding(before: Scene, plan: Plan, after: Scene, users: set<string>, groups: set<string>)
    requires PartlyDone(before, plan, after, users, groups)
    ensures First(after.facts.groups, "lxd").Some? && OperatorInLxd(after) == OperatorInLxd(before)
    ensures WellFormed(after.facts) && RangeExact(after.facts.range)
    ensures Mapped(Some(plan.allocations)) == Some(plan.allocations)
    ensures plan.actions == ActionsOf(before, plan.allocations)
  {
    hide WellFormed, Unblocked, First, Item, Mapped, UsersCreated, GroupsCreated, LeastFree, Reported;
    SameGroup(before, plan, after, users, groups, "lxd");
    SameOperator(before, plan, after, users, groups);
    StillWellFormed(before, plan, after, users, groups);
    CleanStart(before, plan);
    FirstFreeMapped(plan.allocations, before.facts);
    RangeClean(before, None);
  }

  /**
   * Planning again with the recorded IDs, after any accounts and groups of the plan were created: the IDs are the same,
   * a service is refused exactly where it was created in part, and where none is the whole plan is the same.
   */
  lemma Replan(before: Scene, plan: Plan, after: Scene, users: set<string>, groups: set<string>,
               r: Result<Plan, Mishap>)
    requires PartlyDone(before, plan, after, users, groups) && PlanOf(after, Some(plan.allocations), r)
    ensures r.Done? && r.value.allocations == plan.allocations
    ensures r.value.issues ==
            set service | service in SERVICES && Torn(before, users, groups, service) :: Collision(service)
    ensures r.value.Blocking() <==>
            !(users == groups && (users == {} || GroupId(First(before.facts.groups, "kvm")).Some?))
    ensures !r.value.Blocking() ==> r.value == plan
  {
    forall x ensures Reported(x, after, Some(plan.allocations)) <==>
                     x.Collision? && x.service in SERVICES && Torn(before, users, groups, x.service) {
      OnlyCollisions(before, plan, after, users, groups, x);
    }
    SameEnding(before, plan, after, users, groups);
    hide WellFormed, Created, First, Item, Mapped, LeastFree, Reported, OperatorInLxd, RangeExact;
    assert forall name :: name in users + groups ==> name in SERVICES;
    NoneTorn(before, users, groups);
  }

  lemma NoneTorn(s: Scene, users: set<string>, groups: set<string>)
    requires forall name :: name in users + groups ==> name in SERVICES
    ensures (forall service :: service in SERVICES ==> !Torn(s, users, groups, service))
       <==> users == groups && (users == {} || GroupId(First(s.facts.groups, "kvm")).Some?)
  {
    hide First;
    if forall service :: service in SERVICES ==> !Torn(s, users, groups, service) {
      assert forall service :: service in users + groups ==> !Torn(s, users, groups, service);
      assert users == groups;
      if users != {} { var name :| name in users; assert name in users + groups; }
    }
  }
}
