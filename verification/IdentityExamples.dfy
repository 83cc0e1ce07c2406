/** Concrete hosts on which identity planning does not do what one would expect. */
module IdentityExamples {
  import opened Outcomes
  import opened Identity
  import opened IdentityPlans
  import opened Texts

  const E2B := "kitdev-e2b"
  const PROXY := "kitdev-proxy"
  const NOTHING := AccountDetail(None, None, None, None, [])

  function Missing(name: string): Account {
    Fact(name, Absent, Nowhere, NOTHING)
  }

  function MissingGroup(name: string): Group {
    Fact(name, Absent, Nowhere, GroupDetail(None, []))
  }

  function LocalGroup(name: string, gid: Option<int>): Group {
    Fact(name, Ok, Local, GroupDetail(gid, []))
  }

  function Operator(): Account {
    Fact("op", Ok, Local, AccountDetail(Some(1000), Some(1000), None, None, [27]))
  }

  function Accounts(): seq<Account> {
    [Missing(E2B), Missing(PROXY), Missing(WORKER), Operator()]
  }

  /** The group id of kvm was not observed, and lxd was looked for or not. */
  function Groups(lxd: bool): seq<Group> {
    [MissingGroup(E2B), MissingGroup(PROXY), MissingGroup(WORKER), LocalGroup("kvm", None),
     LocalGroup("sudo", Some(27))]
    + if lxd then [MissingGroup("lxd")] else []
  }

  function Gates(): Prerequisites {
    [("host-key", Verified), ("recovery", Verified), ("second-session", Verified), ("sudo-policy", Verified),
     ("operator-ssh-key", Verified), ("bootstrap", Verified), ("journal", Verified)]
  }

  function Example(lxd: bool): Scene {
    Scene(
      Config(true, Some("op")), Host(Some("ubuntu"), Some("26.04"), Some("x86_64")),
      Facts(Accounts(), Groups(lxd), {}, {}, Range(Ok, Some(ID_MIN), Some(ID_MAX), Some(ID_MIN), Some(ID_MAX)),
            PathFact(SHELL, Ok, Some("regular")), PathFact(HOME, Absent, None), Verified),
      Gates())
  }

  lemma {:induction false} FirstIs<D>(facts: seq<Fact<D>>, k: nat)
    requires k < |facts| && forall i :: 0 <= i < k ==> facts[i].name != facts[k].name
    ensures First(facts, facts[k].name) == Some(facts[k])
  {
    if k > 0 { FirstIs(facts[1..], k - 1); }
  }

  lemma {:induction false} Ascii(s: string, maximum: nat)
    requires forall c :: c in s ==> '\U{0020}' <= c < '\U{007f}'
    ensures Utf8Length(s) == |s|
    ensures 0 < |s| <= maximum ==> Bounded(s, maximum)
  {
    if s != "" {
      assert s[0] in s && forall c :: c in s[1..] ==> c in s;
      Ascii(s[1..], maximum);
    }
  }

  lemma NamesDiffer()
    ensures var names := [E2B, PROXY, WORKER, "op", "kvm", "sudo", "lxd"];
            forall i, j :: 0 <= i < j < 7 ==> names[i] != names[j]
  {
    assert E2B[7] == 'e' && PROXY[7] == 'p' && WORKER[7] == 'w';
    assert |"op"| == 2 && |"kvm"| == 3 && "kvm"[0] == 'k' && |"lxd"| == 3 && "lxd"[0] == 'l' && |"sudo"| == 4;
  }

  lemma FoundAccounts()
    ensures var a := Accounts();
            && First(a, E2B) == Some(a[0]) && First(a, PROXY) == Some(a[1]) && First(a, WORKER) == Some(a[2])
            && First(a, "op") == Some(a[3])
  {
    hide First;
    NamesDiffer();
    var a := Accounts();
    FirstIs(a, 0);
    FirstIs(a, 1);
    FirstIs(a, 2);
    FirstIs(a, 3);
  }

  lemma FoundGroups(lxd: bool)
    ensures var g := Groups(lxd);
            && First(g, E2B) == Some(g[0]) && First(g, PROXY) == Some(g[1]) && First(g, WORKER) == Some(g[2])
            && First(g, "kvm") == Some(g[3]) && First(g, "sudo") == Some(g[4])
            && (First(g, "lxd").Some? <==> lxd)
  {
    hide First;
    NamesDiffer();
    var g := Groups(lxd);
    FirstIs(g, 0);
    FirstIs(g, 1);
    FirstIs(g, 2);
    FirstIs(g, 3);
    FirstIs(g, 4);
    FirstAmong(g, "lxd");
    if lxd { assert g[5].name == "lxd"; }
  }

  lemma NoneRepeated(lxd: bool, name: string)
    ensures !Repeated(Accounts(), name) && !Repeated(Groups(lxd), name)
  {
  }

  lemma ServicesBounded()
    ensures Bounded(E2B, 31) && Bounded(PROXY, 31) && Bounded(WORKER, 31)
  {
    hide Bounded, Utf8Length;
    Ascii(E2B, 31);
    Ascii(PROXY, 31);
    Ascii(WORKER, 31);
  }

  lemma OthersBounded()
    ensures Bounded("op", 31) && Bounded("kvm", 31) && Bounded("sudo", 31) && Bounded("lxd", 31)
  {
    hide Bounded, Utf8Length;
    Ascii("op", 31);
    Ascii("kvm", 31);
    Ascii("sudo", 31);
    Ascii("lxd", 31);
  }

  lemma PathsBounded()
    ensures Bounded(SHELL, 4096) && Bounded(HOME, 4096)
  {
    hide Bounded, Utf8Length;
    Ascii(SHELL, 4096);
    Ascii(HOME, 4096);
  }

  lemma AllWellFormed(lxd: bool)
    ensures WellFormed(Example(lxd).facts)
  {
    hide Bounded;
    ServicesBounded();
    OthersBounded();
    PathsBounded();
    var a, g := Accounts(), Groups(lxd);
    forall i | 0 <= i < |a| ensures AccountOk(a[i]) {}
    forall i | 0 <= i < |g| ensures GroupOk(g[i]) {}
  }

  lemma Roomy()
    ensures |Free(ID_MIN, ID_MAX, {} + RUNTIME_IDS)| >= 3
  {
    SubsetSize({61_000, 61_001, 61_002}, Free(ID_MIN, ID_MAX, {} + RUNTIME_IDS));
  }

  predicate AboutService(x: Issue) {
    x.Undiscovered? || x.Collision? || x.UidTaken? || x.GidTaken?
  }

  lemma ServiceSeen(lxd: bool, service: string)
    requires service in SERVICES
    ensures First(Example(lxd).facts.accounts, service) == Some(Missing(service))
    ensures First(Example(lxd).facts.groups, service) == Some(MissingGroup(service))
  {
    FoundAccounts();
    FoundGroups(lxd);
    hide First;
  }

  lemma ServicesFine(lxd: bool, issue: Issue)
    requires AboutService(issue)
    ensures !Reported(issue, Example(lxd), None)
  {
    hide First, Mapped, Free, WellFormed, Repeated, AccountAsPlanned, Exhaustion, Example;
    AllWellFormed(lxd);
    NoManifest();
    if issue.service in SERVICES { ServiceSeen(lxd, issue.service); }
  }

  lemma OthersFine(lxd: bool, issue: Issue)
    requires !AboutService(issue)
    ensures !Reported(issue, Example(lxd), None)
  {
    hide First, Mapped, Free, WellFormed, Repeated, Collides, Seen;
    AllWellFormed(lxd);
    OperatorSeen(lxd);
    Roomy();
    if issue.Duplicate? { NoneRepeated(lxd, issue.name); }
    hide OperatorOf, Accounts, Groups;
  }

  lemma OperatorSeen(lxd: bool)
    ensures OperatorOf(Example(lxd)) == Some(Operator())
    ensures First(Example(lxd).facts.groups, "kvm") == Some(LocalGroup("kvm", None))
    ensures First(Example(lxd).facts.groups, "sudo") == Some(LocalGroup("sudo", Some(27)))
  {
    FoundAccounts();
    FoundGroups(lxd);
    hide First;
  }

  lemma ExampleUnblocked(lxd: bool)
    ensures Unblocked(Example(lxd), None)
  {
    hide Reported, Example;
    forall issue ensures !Reported(issue, Example(lxd), None) {
      if AboutService(issue) { ServicesFine(lxd, issue); } else { OthersFine(lxd, issue); }
    }
  }

  /** Where lxd was not even looked for nothing need block, and planning still cannot finish. */
  lemma PlanningFails()
    ensures Unblocked(Example(false), None)
    ensures forall r :: PlanOf(Example(false), None, r) <==> r == Raised(AssertionFailed)
  {
    ExampleUnblocked(false);
    FoundGroups(false);
    assert Example(false).facts.groups == Groups(false);
    hide Example, Reported, First, Groups, PlanOf;
    forall r ensures PlanOf(Example(false), None, r) <==> r == Raised(AssertionFailed) {
      MissingLxd(Example(false), None, r);
    }
  }

  lemma MissingLxd(s: Scene, manifest: Option<seq<Allocation>>, r: Result<Plan, Mishap>)
    requires Unblocked(s, manifest) && First(s.facts.groups, "lxd").None?
    ensures PlanOf(s, manifest, r) <==> r == Raised(AssertionFailed)
  {
    hide Reported, First, Allocated, ActionsOf;
    assert r.Raised? ==> r.error.AssertionFailed?;
  }

  // ---- one service created, with the group id of kvm unknown

  function Allocations(): seq<Allocation> {
    [Allocation(E2B, 61_000, 61_000), Allocation(PROXY, 61_001, 61_001), Allocation(WORKER, 61_002, 61_002)]
  }

  function FirstPlan(): Plan {
    Plan(Allocations(), ActionsOf(Example(true), Allocations()), {})
  }

  function CreatedUser(): Account {
    Fact(E2B, Ok, Local, AccountDetail(Some(61_000), Some(61_000), Some(HOME), Some(SHELL), [61_000]))
  }

  /** kitdev-e2b exists exactly as planned. */
  function Later(): Scene {
    var s := Example(true);
    s.(facts := s.facts.(
      accounts := [CreatedUser()] + Accounts()[1..],
      groups := [LocalGroup(E2B, Some(61_000))] + Groups(true)[1..],
      occupiedUids := {61_000}, occupiedGids := {61_000}))
  }

  lemma AllocationsFree()
    ensures FirstFree(Allocations(), Example(true).facts)
  {
    var ids := [61_000, 61_001, 61_002];
    assert Uids(Allocations()) == Gids(Allocations()) == ids;
    assert LeastFree(ids, ID_MIN, ID_MAX, {} + RUNTIME_IDS, 3);
    hide LeastFree;
  }

  lemma FirstPlanMade()
    ensures PlanOf(Example(true), None, Done(FirstPlan())) && !FirstPlan().Blocking()
  {
    ExampleUnblocked(true);
    FoundGroups(true);
    AllWellFormed(true);
    AllocationsFree();
    Roomy();
    hide Reported, WellFormed, Free, First, ActionsOf, FirstFree, Allocations, Groups, Accounts, Gates;
  }

  lemma UserMade()
    ensures UsersCreated(Accounts(), Later().facts.accounts, Allocations(), {E2B}, None)
    ensures forall i :: 0 <= i < 4 ==> AccountOk(Later().facts.accounts[i])
  {
    ServicesBounded();
    OthersBounded();
    PathsBounded();
    NamesDiffer();
    hide Bounded, First, Groups;
    var before, after := Accounts(), Later().facts.accounts;
    assert Item(Allocations(), E2B) == Some(Allocations()[0]);
    assert (set id | id in [61_000]) == {61_000};
    assert UserStep(before[0], after[0], Allocations(), {E2B}, None);
  }

  lemma GroupMade()
    ensures GroupsCreated(Groups(true), Later().facts.groups, Allocations(), {E2B})
    ensures forall i :: 0 <= i < 6 ==> GroupOk(Later().facts.groups[i])
  {
    ServicesBounded();
    OthersBounded();
    NamesDiffer();
    hide Bounded, First, Accounts;
    var before, after := Groups(true), Later().facts.groups;
    assert Item(Allocations(), E2B) == Some(Allocations()[0]);
    assert GroupStep(before[0], after[0], Allocations(), {E2B});
  }

  lemma IdsTaken()
    ensures (set item | item in Allocations() && item.name in {E2B} :: item.uid) == {61_000}
    ensures (set item | item in Allocations() && item.name in {E2B} :: item.gid) == {61_000}
  {
    NamesDiffer();
    assert Allocations()[0] in Allocations();
  }

  lemma LaterCreated()
    ensures Created(Example(true).facts, Later().facts, Allocations(), {E2B}, {E2B})
  {
    FoundGroups(true);
    UserMade();
    GroupMade();
    IdsTaken();
    hide AccountOk, GroupOk, UsersCreated, GroupsCreated, First, Allocations;
  }

  /** Planning again refuses a service that is exactly as planned, because the group id of kvm was not observed. */
  lemma UnknownKvmRefused()
    ensures PartlyDone(Example(true), FirstPlan(), Later(), {E2B}, {E2B})
    ensures forall r :: PlanOf(Later(), Some(Allocations()), r) ==> r.Done? && r.value.issues == {Collision(E2B)}
  {
    FirstPlanMade();
    LaterCreated();
    FoundGroups(true);
    hide Created, PlanOf, First, ActionsOf;
    assert PartlyDone(Example(true), FirstPlan(), Later(), {E2B}, {E2B});
    forall r | PlanOf(Later(), Some(Allocations()), r) ensures r.Done? && r.value.issues == {Collision(E2B)} {
      Replan(Example(true), FirstPlan(), Later(), {E2B}, {E2B}, r);
    }
  }
}
