/** Identity planning: which accounts, groups and IDs the installer would create, and when it refuses. */
module Identity {
  import opened Outcomes

  datatype Status = Ok | Absent | Unknown
  datatype Origin = Local | Nss | Nowhere | Untold
  datatype Gate = Verified | Unresolved | Failed

  datatype Fact<+D> = Fact(name: string, status: Status, origin: Origin, detail: D)
  datatype AccountDetail = AccountDetail(
    uid: Option<int>, gid: Option<int>, home: Option<string>, shell: Option<string>, supplementary: seq<int>)
  datatype GroupDetail = GroupDetail(gid: Option<int>, members: seq<string>)
  type Account = Fact<AccountDetail>
  type Group = Fact<GroupDetail>

  datatype PathFact = PathFact(path: string, status: Status, kind: Option<string>)
  datatype Range = Range(status: Status, uidMin: Option<int>, uidMax: Option<int>, gidMin: Option<int>,
                         gidMax: Option<int>)

  datatype Facts = Facts(
    accounts: seq<Account>, groups: seq<Group>, occupiedUids: set<int>, occupiedGids: set<int>,
    range: Range, nologin: PathFact, nonexistent: PathFact, lxdNonUse: Gate)

  datatype Host = Host(osId: Option<string>, osVersionId: Option<string>, architecture: Option<string>)
  datatype Config = Config(production: bool, operator: Option<string>)

  /** The seven prerequisites by name, in the order they are checked. */
  type Prerequisites = gates: seq<(string, Gate)> | Names(gates) == PREREQUISITES
    witness [("host-key", Verified), ("recovery", Verified), ("second-session", Verified), ("sudo-policy", Verified),
             ("operator-ssh-key", Verified), ("bootstrap", Verified), ("journal", Verified)]

  const PREREQUISITES :=
    ["host-key", "recovery", "second-session", "sudo-policy", "operator-ssh-key", "bootstrap", "journal"]

  function Names(gates: seq<(string, Gate)>): seq<string> {
    seq(|gates|, i requires 0 <= i < |gates| => gates[i].0)
  }

  datatype Scene = Scene(config: Config, host: Host, facts: Facts, prerequisites: Prerequisites)

  datatype Allocation = Allocation(name: string, uid: int, gid: int)

  datatype Issue =
    | Malformed
    | Mapping
    | Platform
    | Lifecycle
    | OperatorMissing
    | Prerequisite(name: string, gate: Gate)
    | LxdInUse
    | Duplicate(name: string)
    | Undiscovered(service: string)
    | Collision(service: string)
    | OperatorNotLocal
    | OperatorNotSudo
    | KvmUnproven
    | NologinUnproven
    | HomePresent
    | RangeUnknown
    | RangeForeign
    | UidTaken(service: string)
    | GidTaken(service: string)
    | Exhausted

  datatype Action =
    | MakeGroup(allocation: Allocation)
    | MakeUser(allocation: Allocation, joinsKvm: bool)
    | LeaveLxd

  datatype Plan = Plan(allocations: seq<Allocation>, actions: seq<Action>, issues: set<Issue>) {
    predicate Blocking() {
      issues != {}
    }
  }

  /** The assertion near the end of planning failed. */
  datatype Mishap = AssertionFailed

  const WORKER := "kitdev-worker"
  const SERVICES := ["kitdev-e2b", "kitdev-proxy", WORKER]
  const ID_MIN := 61_000
  const ID_MAX := 61_999
  const RUNTIME_IDS: set<int> := {101, 999, 10_001}
  const HOME := "/nonexistent"
  const SHELL := "/usr/sbin/nologin"

  // ---- the least free IDs

  /** `ids` are the `count` smallest IDs of the band that are not occupied. */
  predicate LeastFree(ids: seq<int>, first: int, last: int, occupied: set<int>, count: nat) {
    && |ids| == count
    && (forall i, j :: 0 <= i < j < |ids| ==> ids[i] < ids[j])
    && (forall id :: id in ids ==> first <= id <= last && id !in occupied)
    && (forall id, taken :: taken in ids && first <= id < taken && id !in occupied ==> id in ids)
  }

  function Free(first: int, last: int, occupied: set<int>): set<int> {
    set id | first <= id <= last && id !in occupied
  }

  method Allocate(first: int, last: int, occupied: set<int>, count: nat) returns (ids: Option<seq<int>>)
    ensures ids.Some? <==> 0 < count <= |Free(first, last, occupied)|
    ensures ids.Some? ==> LeastFree(ids.value, first, last, occupied, count)
  {
    hide Free;
    var available: seq<int> := [];
    FreeEnd(first, first - 1, occupied);
    FreeEnd(first, last, occupied);
    var candidate := first;
    while candidate <= last
      invariant first <= candidate && (candidate <= last + 1 || candidate == first)
      invariant count == 0 || |available| < count
      invariant forall i :: 0 <= i < |available| ==> available[i] < candidate
      invariant forall i, j :: 0 <= i < j < |available| ==> available[i] < available[j]
      invariant forall id :: id in available <==> first <= id < candidate && id !in occupied
      invariant |available| == |Free(first, candidate - 1, occupied)|
    {
      FreeStep(first, candidate, occupied);
      if candidate !in occupied {
        available := available + [candidate];
        if |available| == count {
          FreeGrows(first, candidate, last, occupied);
          return Some(available);
        }
      }
      candidate := candidate + 1;
    }
    return None;
  }

  lemma FreeStep(first: int, id: int, occupied: set<int>)
    requires first <= id
    ensures |Free(first, id, occupied)| == |Free(first, id - 1, occupied)| + if id in occupied then 0 else 1
  {
    assert Free(first, id, occupied) == Free(first, id - 1, occupied) + if id in occupied then {} else {id};
  }

  lemma FreeEnd(first: int, last: int, occupied: set<int>)
    ensures last < first ==> Free(first, last, occupied) == {}
  {
  }

  lemma FreeGrows(first: int, middle: int, last: int, occupied: set<int>)
    requires middle <= last
    ensures |Free(first, middle, occupied)| <= |Free(first, last, occupied)|
  {
    SubsetSize(Free(first, middle, occupied), Free(first, last, occupied));
  }

  lemma {:induction false} SubsetSize<T>(a: set<T>, b: set<T>)
    requires a <= b
    ensures |a| <= |b|
  {
    if a != {} {
      var x :| x in a;
      SubsetSize(a - {x}, b - {x});
    }
  }

  lemma NotSmaller(a: seq<int>, b: seq<int>, first: int, last: int, occupied: set<int>, count: nat, k: nat)
    requires LeastFree(a, first, last, occupied, count) && LeastFree(b, first, last, occupied, count)
    requires k < count && a[..k] == b[..k]
    ensures a[k] >= b[k]
  {
    forall j | 0 <= j < k ensures a[j] == b[j] {
      assert a[..k][j] == b[..k][j];
    }
    assert a[k] in a && b[k] in b;
    if a[k] < b[k] {
      assert false;
    }
  }

  /** There is only one way to be the least free IDs. */
  lemma {:induction false} LeastFreeUnique(a: seq<int>, b: seq<int>, first: int, last: int, occupied: set<int>,
                                           count: nat, k: nat)
    requires LeastFree(a, first, last, occupied, count) && LeastFree(b, first, last, occupied, count) && k <= count
    ensures a[..k] == b[..k]
  {
    if k > 0 {
      LeastFreeUnique(a, b, first, last, occupied, count, k - 1);
      NotSmaller(a, b, first, last, occupied, count, k - 1);
      NotSmaller(b, a, first, last, occupied, count, k - 1);
      assert a[..k] == a[..k - 1] + [a[k - 1]] && b[..k] == b[..k - 1] + [b[k - 1]];
    }
  }

  // ---- the manifest's mapping

  function Item(allocations: seq<Allocation>, name: string): Option<Allocation> {
    if allocations == [] then None
    else if allocations[0].name == name then Some(allocations[0])
    else Item(allocations[1..], name)
  }

  predicate Reserved(id: int) {
    ID_MIN <= id <= ID_MAX && id !in RUNTIME_IDS
  }

  predicate ValidItem(item: Allocation) {
    item.name in SERVICES && Reserved(item.uid) && Reserved(item.gid)
  }

  predicate Apart(a: Allocation, b: Allocation) {
    a.name != b.name && a.uid != b.uid && a.gid != b.gid
  }

  predicate ValidMapping(value: seq<Allocation>) {
    && |value| == |SERVICES|
    && (forall item :: item in value ==> ValidItem(item))
    && (forall i, j :: 0 <= i < j < |value| ==> Apart(value[i], value[j]))
    && (forall name :: name in SERVICES ==> Item(value, name).Some?)
  }

  /** The manifest's mapping in the order of the services, when there is one and it is valid. */
  function Mapped(value: Option<seq<Allocation>>): Option<seq<Allocation>> {
    if value.Some? && ValidMapping(value.value)
    then Some(seq(|SERVICES|, i requires 0 <= i < |SERVICES| => Item(value.value, SERVICES[i]).value))
    else None
  }

  lemma {:induction false} ItemAt(value: seq<Allocation>, k: nat)
    requires k < |value| && forall i :: 0 <= i < k ==> value[i].name != value[k].name
    ensures Item(value, value[k].name) == Some(value[k])
  {
    if k > 0 { ItemAt(value[1..], k - 1); }
  }

  lemma {:induction false} ItemAmong(value: seq<Allocation>, name: string)
    ensures Item(value, name).Some? <==> exists i :: 0 <= i < |value| && value[i].name == name
    ensures Item(value, name).Some? ==> Item(value, name).value in value && Item(value, name).value.name == name
  {
    if value != [] && value[0].name != name {
      ItemAmong(value[1..], name);
      if i :| 0 <= i < |value| && value[i].name == name {
        assert value[1..][i - 1].name == name;
      }
    }
  }

  /** The items so far, the IDs they use, and the names they are filed under. */
  ghost predicate Filed(items: seq<Allocation>, byName: map<string, Allocation>, uids: set<int>, gids: set<int>) {
    && (forall i :: 0 <= i < |items| ==> ValidItem(items[i]))
    && (forall i, j :: 0 <= i < j < |items| ==> Apart(items[i], items[j]))
    && (forall name :: name in byName <==> Item(items, name).Some?)
    && (forall name :: name in byName ==> byName[name] == Item(items, name).value)
    && uids == (set i | 0 <= i < |items| :: items[i].uid)
    && gids == (set i | 0 <= i < |items| :: items[i].gid)
  }

  lemma {:induction false} ItemOfLast(items: seq<Allocation>, last: Allocation, name: string)
    ensures Item(items + [last], name) ==
            if Item(items, name).Some? then Item(items, name) else if last.name == name then Some(last) else None
  {
    if items == [] {
      assert items + [last] == [last];
    } else {
      assert (items + [last])[1..] == items[1..] + [last];
      ItemOfLast(items[1..], last, name);
    }
  }

  lemma FileNext(items: seq<Allocation>, byName: map<string, Allocation>, uids: set<int>, gids: set<int>,
                 item: Allocation)
    requires Filed(items, byName, uids, gids)
    requires ValidItem(item) && item.name !in byName && item.uid !in uids && item.gid !in gids
    ensures Filed(items + [item], byName[item.name := item], uids + {item.uid}, gids + {item.gid})
  {
    var more := items + [item];
    forall name ensures Item(more, name) ==
                        if Item(items, name).Some? then Item(items, name)
                        else if item.name == name then Some(item)
                        else None {
      ItemOfLast(items, item, name);
    }
    forall i | 0 <= i < |items| ensures Apart(items[i], item) {
      ItemAmong(items, items[i].name);
    }
    assert (set i | 0 <= i < |more| :: more[i].uid) == (set i | 0 <= i < |items| :: items[i].uid) + {item.uid} by {
      assert forall i :: 0 <= i < |items| ==> more[i] == items[i];
      assert more[|items|] == item;
    }
    assert (set i | 0 <= i < |more| :: more[i].gid) == (set i | 0 <= i < |items| :: items[i].gid) + {item.gid} by {
      assert forall i :: 0 <= i < |items| ==> more[i] == items[i];
      assert more[|items|] == item;
    }
  }

  /** An item that cannot be filed after the others makes the mapping invalid. */
  lemma FileRefused(items: seq<Allocation>, k: nat, byName: map<string, Allocation>, uids: set<int>, gids: set<int>)
    requires k < |items| && Filed(items[..k], byName, uids, gids)
    requires !ValidItem(items[k]) || items[k].name in byName || items[k].uid in uids || items[k].gid in gids
    ensures !ValidMapping(items)
  {
    assert items[k] in items;
    if ValidItem(items[k]) {
      if items[k].name in byName { ItemAmong(items[..k], items[k].name); }
      var i :| 0 <= i < k && !Apart(items[..k][i], items[k]);
      assert items[..k][i] == items[i];
    }
  }

  method ManifestMapping(value: Option<seq<Allocation>>) returns (mapping: Option<seq<Allocation>>, refused: bool)
    ensures mapping == Mapped(value)
    ensures refused <==> value.Some? && Mapped(value).None?
  {
    if value.None? {
      return None, false;
    }
    hide Filed;
    var items := value.value;
    if |items| != |SERVICES| {
      return None, true;
    }
    var byName: map<string, Allocation> := map[];
    var usedUids: set<int>, usedGids: set<int> := {}, {};
    NothingFiled();
    for k := 0 to |items|
      invariant Filed(items[..k], byName, usedUids, usedGids)
    {
      var item := items[k];
      if item.name !in SERVICES || item.name in byName || !Reserved(item.uid) || !Reserved(item.gid)
         || item.uid in usedUids || item.gid in usedGids {
        FileRefused(items, k, byName, usedUids, usedGids);
        return None, true;
      }
      FileNext(items[..k], byName, usedUids, usedGids, item);
      assert items[..k] + [item] == items[..k + 1];
      byName := byName[item.name := item];
      usedUids, usedGids := usedUids + {item.uid}, usedGids + {item.gid};
    }
    assert items[..|items|] == items;
    AllFiled(items, byName, usedUids, usedGids);
    if exists name :: name in SERVICES && name !in byName {
      return None, true;
    }
    mapping, refused := Some(seq(|SERVICES|, i requires 0 <= i < |SERVICES| => byName[SERVICES[i]])), false;
    assert mapping.value == Mapped(value).value;
  }

  lemma NothingFiled()
    ensures forall items: seq<Allocation> :: Filed(items[..0], map[], {}, {})
  {
  }

  lemma AllFiled(items: seq<Allocation>, byName: map<string, Allocation>, uids: set<int>, gids: set<int>)
    requires Filed(items, byName, uids, gids) && |items| == |SERVICES|
    ensures ValidMapping(items) <==> forall name :: name in SERVICES ==> name in byName
    ensures forall name :: name in byName ==> Item(items, name) == Some(byName[name])
  {
  }

  /** A mapping already in the order of the services comes out unchanged. */
  lemma MappedUnchanged(value: seq<Allocation>)
    requires |value| == |SERVICES| && forall i :: 0 <= i < |value| ==>
               value[i].name == SERVICES[i] && ValidItem(value[i])
    requires forall i, j :: 0 <= i < j < |value| ==> Apart(value[i], value[j])
    ensures Mapped(Some(value)) == Some(value)
    ensures forall i :: 0 <= i < |value| ==> Item(value, SERVICES[i]) == Some(value[i])
  {
    forall i | 0 <= i < |value| ensures Item(value, SERVICES[i]) == Some(value[i]) { ItemAt(value, i); }
    forall name | name in SERVICES ensures Item(value, name).Some? {
      var i :| 0 <= i < |SERVICES| && SERVICES[i] == name;
      assert Item(value, SERVICES[i]).Some?;
    }
    assert ValidMapping(value);
    assert Mapped(Some(value)).value == value;
  }
}
