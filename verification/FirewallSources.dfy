/** The firewall's source list: two validators of one document, and the candidate edits. */
module FirewallSources {
  import opened Outcomes

  datatype Version = V4 | V6

  /** A block of 2^(width - prefix) addresses starting at `address`. */
  datatype Network = Network(version: Version, address: nat, prefix: nat)

  /** A CIDR string: the canonical text of a network, another spelling of one, or neither. */
  datatype CidrText = Canonical(network: Network) | Unusual(network: Network) | Garbage

  datatype Source = Source(cidr: CidrText, nonPublic: bool, broad: bool)

  datatype Mode = Closed | Public | Restricted

  datatype Document = Document(mode: Mode, sources: seq<Source>)

  datatype Reason =
    | CidrInvalid
    | CidrNotCanonical
    | NonPublicRequiresOverride
    | BroadRangeRequiresOverride
    | ManifestInvalid
    | ManifestOverlapping
    | BackendInvalid

  type Outcome<+T> = Result<T, Reason>

  function Width(v: Version): nat {
    if v.V4? then 32 else 128
  }

  function Pow2(n: nat): nat
    ensures Pow2(n) > 0
  {
    if n == 0 then 1 else 2 * Pow2(n - 1)
  }

  function Count(n: Network): nat
    ensures Count(n) > 0
  {
    Pow2(if n.prefix <= Width(n.version) then Width(n.version) - n.prefix else 0)
  }

  /** What `ip_network(..., strict=True)` accepts: no host bits, and inside the address space. */
  predicate ValidNetwork(n: Network) {
    && n.prefix <= Width(n.version)
    && n.address % Count(n) == 0
    && n.address + Count(n) <= Pow2(Width(n.version))
  }

  predicate ValidText(c: CidrText) {
    !c.Garbage? ==> ValidNetwork(c.network)
  }

  predicate IsBroad(n: Network) {
    n.prefix < if n.version.V4? then 24 else 64
  }

  /** The checks of one CIDR; `classify` tells which networks are not public. */
  function Normalize(c: CidrText, allowNonPublic: bool, allowBroad: bool, classify: Network -> bool): Outcome<Network> {
    match c
    case Garbage => Raised(CidrInvalid)
    case Unusual(_) => Raised(CidrNotCanonical)
    case Canonical(n) =>
      if n.prefix == 0 then Raised(CidrNotCanonical)
      else if classify(n) && !allowNonPublic then Raised(NonPublicRequiresOverride)
      else if IsBroad(n) && !allowBroad then Raised(BroadRangeRequiresOverride)
      else Done(n)
  }

  // ---- order and overlap

  predicate KeyBelow(a: Network, b: Network) {
    || (a.version.V4? && b.version.V6?)
    || (a.version == b.version && (a.address < b.address || (a.address == b.address && a.prefix < b.prefix)))
  }

  predicate KeyAtMost(a: Network, b: Network) {
    a == b || KeyBelow(a, b)
  }

  predicate Contains(n: Network, version: Version, address: nat) {
    n.version == version && n.address <= address < n.address + Count(n)
  }

  /** Whether either end of one block lies in the other. */
  predicate Overlaps(a: Network, b: Network) {
    || Contains(a, b.version, b.address) || Contains(a, b.version, b.address + Count(b) - 1)
    || Contains(b, a.version, a.address) || Contains(b, a.version, a.address + Count(a) - 1)
  }

  lemma OverlapMeansShared(a: Network, b: Network)
    ensures Overlaps(a, b) <==> exists x :: Contains(a, a.version, x) && Contains(b, a.version, x)
  {
    if Overlaps(a, b) {
      var x := if a.address <= b.address then b.address else a.address;
      assert Contains(a, a.version, x) && Contains(b, a.version, x);
    }
  }

  lemma OverlapsEitherWay(a: Network, b: Network)
    ensures Overlaps(a, b) == Overlaps(b, a)
  {
  }

  lemma Pow2Divides(i: nat, j: nat)
    requires i <= j
    ensures Pow2(j) == Pow2(j - i) * Pow2(i)
  {
    if i < j { Pow2Divides(i, j - 1); }
  }

  lemma {:induction false} MultiplesApart(s: nat, x: int, y: int)
    requires x < y
    ensures s * x + s <= s * y
    decreases y - x
  {
    if x + 1 < y {
      MultiplesApart(s, x, y - 1);
      assert s * y == s * (y - 1) + s;
    } else {
      assert s * y == s * x + s;
    }
  }

  lemma MultiplesInOrder(s: nat, x: int, y: int)
    requires x <= y
    ensures s * x <= s * y
  {
    if x < y { MultiplesApart(s, x, y); }
  }

  lemma Regrouped(s: nat, k: nat, q: int)
    ensures (k * s) * q == s * (k * q) && k * s == s * k
  {
  }

  lemma Distributed(s: nat, y: int, k: nat)
    ensures s * (y + k) == s * y + s * k
  {
  }

  /** A multiple of `s` and `k` steps from a multiple of `s`. */
  lemma SteppedBlocks(s: nat, k: nat, x: int, y: int)
    ensures s * x + s <= s * y || s * y + s * k <= s * x || (s * y <= s * x && s * x + s <= s * y + s * k)
  {
    Distributed(s, y, k);
    if x < y {
      MultiplesApart(s, x, y);
    } else if y + k <= x {
      MultiplesInOrder(s, y + k, x);
    } else {
      MultiplesInOrder(s, y, x);
      MultiplesApart(s, x, y + k);
    }
  }

  /** A block of `s` and a block of `k * s`, both aligned to their size, are nested or apart. */
  lemma AlignedBlocks(s: nat, k: nat, a: nat, b: nat)
    requires s > 0 && k > 0 && a % s == 0 && b % (k * s) == 0
    ensures a + s <= b || b + k * s <= a || (b <= a && a + s <= b + k * s)
  {
    var q := b / (k * s);
    assert a == s * (a / s);
    assert b == (k * s) * q;
    Regrouped(s, k, q);
    SteppedBlocks(s, k, a / s, k * q);
  }

  /** Two blocks of the same version are nested or disjoint. */
  lemma NestedOrDisjoint(a: Network, b: Network)
    requires ValidNetwork(a) && ValidNetwork(b) && a.version == b.version && b.prefix <= a.prefix
    ensures Overlaps(a, b) <==> b.address <= a.address && a.address + Count(a) <= b.address + Count(b)
  {
    var w := Width(a.version);
    Pow2Divides(w - a.prefix, w - b.prefix);
    AlignedBlocks(Count(a), Pow2(a.prefix - b.prefix), a.address, b.address);
  }

  // ---- what both validators accept

  /** One entry: canonical text, never the whole space, and both overrides exactly as the network needs them. */
  predicate ValidSource(s: Source, classify: Network -> bool) {
    && s.cidr.Canonical? && ValidNetwork(s.cidr.network) && s.cidr.network.prefix != 0
    && s.nonPublic == classify(s.cidr.network) && s.broad == IsBroad(s.cidr.network)
  }

  function Net(s: Source): Network {
    if s.cidr.Garbage? then Network(V4, 0, 0) else s.cidr.network
  }

  // The following speak of the first `k` sources.

  predicate Valid(ss: seq<Source>, k: nat, classify: Network -> bool)
    requires k <= |ss|
  {
    forall i :: 0 <= i < k ==> ValidSource(ss[i], classify)
  }

  predicate Disjoint(ss: seq<Source>, k: nat)
    requires k <= |ss|
  {
    forall i, j :: 0 <= i < j < k ==> !Overlaps(Net(ss[j]), Net(ss[i]))
  }

  predicate Increasing(ss: seq<Source>, k: nat)
    requires k <= |ss|
  {
    forall i, j :: 0 <= i < j < k ==> KeyBelow(Net(ss[i]), Net(ss[j]))
  }

  predicate Nondecreasing(ss: seq<Source>, k: nat)
    requires k <= |ss|
  {
    forall i, j :: 0 <= i < j < k ==> KeyAtMost(Net(ss[i]), Net(ss[j]))
  }

  predicate ValidDocument(d: Document, classify: Network -> bool) {
    var n := |d.sources|;
    Valid(d.sources, n, classify) && Increasing(d.sources, n) && Disjoint(d.sources, n)
  }

  /** What the CLI accepts of a backend reply. */
  predicate ValidReply(d: Document, classify: Network -> bool) {
    var n := |d.sources|;
    Valid(d.sources, n, classify) && Nondecreasing(d.sources, n) && Disjoint(d.sources, n)
  }

  lemma OverlapsItself(n: Network)
    ensures Overlaps(n, n)
  {
    assert Contains(n, n.version, n.address);
  }

  /** Disjoint blocks are different, so nondecreasing and strictly increasing lists are the same lists. */
  lemma ValidatorsAgree(d: Document, classify: Network -> bool)
    ensures ValidDocument(d, classify) <==> ValidReply(d, classify)
  {
    var ss := d.sources;
    if Disjoint(ss, |ss|) {
      forall i, j | 0 <= i < j < |ss| ensures Net(ss[i]) != Net(ss[j]) {
        OverlapsItself(Net(ss[j]));
      }
    }
  }

  /** In key order, checking neighbours would suffice. */
  lemma {:induction false} NeighboursSuffice(ss: seq<Source>, i: nat, j: nat)
    requires Nondecreasing(ss, |ss|) && i < j < |ss|
    requires forall k :: 0 <= k < |ss| - 1 ==> !Overlaps(Net(ss[k + 1]), Net(ss[k]))
    ensures !Overlaps(Net(ss[j]), Net(ss[i]))
    ensures Net(ss[i]).version == Net(ss[j]).version ==> Net(ss[i]).address + Count(Net(ss[i])) <= Net(ss[j]).address
    decreases j - i
  {
    var a, b := Net(ss[i]), Net(ss[j]);
    assert KeyAtMost(a, b);
    if j == i + 1 {
      assert !Overlaps(Net(ss[i + 1]), Net(ss[i]));
    } else {
      NeighboursSuffice(ss, i, j - 1);
      NeighboursSuffice(ss, j - 1, j);
      assert KeyAtMost(a, Net(ss[j - 1])) && KeyAtMost(Net(ss[j - 1]), b);
    }
  }

  /** An address lies in at most one source of an accepted document. */
  lemma OneSourcePerAddress(d: Document, classify: Network -> bool, version: Version, address: nat, i: nat, j: nat)
    requires ValidDocument(d, classify) && i < |d.sources| && j < |d.sources|
    requires Contains(Net(d.sources[i]), version, address) && Contains(Net(d.sources[j]), version, address)
    ensures i == j
  {
    var a, b := Net(d.sources[i]), Net(d.sources[j]);
    assert Contains(a, a.version, address) && Contains(b, a.version, address);
    OverlapMeansShared(a, b);
    OverlapMeansShared(b, a);
  }

  predicate Apart(ss: seq<Source>, n: Network) {
    forall i :: 0 <= i < |ss| ==> !Overlaps(n, Net(ss[i]))
  }

  lemma DisjointStep(ss: seq<Source>, k: nat)
    requires k < |ss|
    ensures Disjoint(ss, k + 1) <==> Disjoint(ss, k) && Apart(ss[..k], Net(ss[k]))
    ensures Disjoint(ss, |ss|) ==> Disjoint(ss, k + 1)
  {
    hide Overlaps;
    if Disjoint(ss, k + 1) {
      forall i | 0 <= i < k ensures !Overlaps(Net(ss[k]), Net(ss[..k][i])) {
        assert ss[..k][i] == ss[i];
      }
    } else if Apart(ss[..k], Net(ss[k])) {
      assert forall i :: 0 <= i < k ==> ss[..k][i] == ss[i];
    }
  }

  lemma IncreasingStep(ss: seq<Source>, k: nat)
    requires k < |ss|
    ensures Increasing(ss, k) && (k > 0 ==> KeyBelow(Net(ss[k - 1]), Net(ss[k]))) <==> Increasing(ss, k + 1)
    ensures Increasing(ss, |ss|) ==> Increasing(ss, k + 1)
  {
  }

  // ---- the two validators

  method ValidateDocument(d: Document, classify: Network -> bool) returns (r: Outcome<Document>)
    requires forall s :: s in d.sources ==> ValidText(s.cidr)
    ensures !r.Killed?
    ensures r.Done? <==> ValidDocument(d, classify)
    ensures r.Done? ==> r.value == d
  {
    hide ValidNetwork, Overlaps, Pow2, IsBroad, Disjoint, Apart, Increasing, KeyBelow;
    var sources: seq<Source> := [];
    var previous: Option<Network> := None;
    NothingYet(d.sources);
    for k := 0 to |d.sources|
      invariant sources == d.sources[..k]
      invariant Valid(d.sources, k, classify) && Increasing(d.sources, k) && Disjoint(d.sources, k)
      invariant previous == if k == 0 then None else Some(Net(d.sources[k - 1]))
    {
      var item := d.sources[k];
      assert item in d.sources;
      DisjointStep(d.sources, k);
      IncreasingStep(d.sources, k);
      var network :- Normalize(item.cidr, item.nonPublic, item.broad, classify);
      if item.nonPublic != classify(network) || item.broad != IsBroad(network)
         || (previous.Some? && !KeyBelow(previous.value, network)) {
        return Raised(ManifestInvalid);
      }
      if !Apart(sources, network) {
        return Raised(ManifestOverlapping);
      }
      previous := Some(network);
      sources := sources + [item];
    }
    return Done(Document(d.mode, sources));
  }

  lemma NothingYet(ss: seq<Source>)
    ensures Increasing(ss, 0) && Disjoint(ss, 0)
  {
  }

  /** The CLI's own check of a backend reply. */
  method CheckBackend(d: Document, classify: Network -> bool) returns (r: Outcome<seq<Source>>)
    requires forall s :: s in d.sources ==> ValidText(s.cidr)
    ensures !r.Killed?
    ensures r.Done? <==> ValidReply(d, classify)
    ensures r.Done? ==> r.value == d.sources
  {
    hide ValidNetwork, Overlaps, Pow2, IsBroad, Disjoint, Apart;
    var checked: seq<Source> := [];
    var networks: seq<Network> := [];
    NothingYet(d.sources);
    for k := 0 to |d.sources|
      invariant checked == d.sources[..k] && |networks| == k
      invariant forall i :: 0 <= i < k ==> networks[i] == Net(d.sources[i])
      invariant Valid(d.sources, k, classify) && Disjoint(d.sources, k)
    {
      var item := d.sources[k];
      assert item in d.sources;
      DisjointStep(d.sources, k);
      var network :- Normalize(item.cidr, item.nonPublic, item.broad, classify);
      if item.nonPublic != classify(network) || item.broad != IsBroad(network) {
        return Raised(BackendInvalid);
      }
      if !Apart(checked, network) {
        return Raised(BackendInvalid);
      }
      networks := networks + [network];
      checked := checked + [item];
    }
    SortedKeys(networks);
    if networks != SortBy(networks, Itself) {
      return Raised(BackendInvalid);
    }
    return Done(checked);
  }

  // ---- sorting by key, as Python's sorted()

  function InsertBy<T>(x: T, xs: seq<T>, key: T -> Network): seq<T> {
    if xs == [] || KeyAtMost(key(x), key(xs[0])) then [x] + xs else [xs[0]] + InsertBy(x, xs[1..], key)
  }

  function SortBy<T>(xs: seq<T>, key: T -> Network): seq<T> {
    if xs == [] then [] else InsertBy(xs[0], SortBy(xs[1..], key), key)
  }

  function Itself(n: Network): Network {
    n
  }

  predicate KeysOrdered(ns: seq<Network>) {
    forall i, j :: 0 <= i < j < |ns| ==> KeyAtMost(ns[i], ns[j])
  }

  lemma InsertOrdered(n: Network, ns: seq<Network>)
    requires KeysOrdered(ns)
    ensures KeysOrdered(InsertBy(n, ns, Itself))
    ensures forall m :: m in InsertBy(n, ns, Itself) ==> m == n || m in ns
  {
    if ns != [] && !KeyAtMost(n, ns[0]) {
      InsertOrdered(n, ns[1..]);
      forall m | m in InsertBy(n, ns[1..], Itself) ensures KeyAtMost(ns[0], m) {
        if m != n {
          var k :| 0 <= k < |ns[1..]| && ns[1..][k] == m;
          assert ns[k + 1] == m;
        }
      }
    }
  }

  /** A list of keys equals its sorted form exactly when it is nondecreasing. */
  lemma SortedKeys(ns: seq<Network>)
    ensures KeysOrdered(SortBy(ns, Itself))
    ensures KeysOrdered(ns) ==> SortBy(ns, Itself) == ns
  {
    if ns != [] {
      SortedKeys(ns[1..]);
      InsertOrdered(ns[0], SortBy(ns[1..], Itself));
      if KeysOrdered(ns) {
        assert |ns| > 1 ==> KeyAtMost(ns[0], ns[1]);
      }
    }
  }

  lemma SortedSources(ss: seq<Source>)
    requires Nondecreasing(ss, |ss|)
    ensures SortBy(ss, Net) == ss
  {
    if ss != [] {
      assert forall i :: 0 <= i < |ss[1..]| ==> ss[1..][i] == ss[i + 1];
      SortedSources(ss[1..]);
      assert |ss| > 1 ==> KeyAtMost(Net(ss[0]), Net(ss[1]));
    }
  }

  // ---- candidate edits

  datatype Action = Add | Remove

  /** The entry of a network, with the overrides it needs. */
  function EntryOf(n: Network, classify: Network -> bool): Source {
    Source(Canonical(n), classify(n), IsBroad(n))
  }

  predicate Listed(ss: seq<Source>, n: Network) {
    exists i :: 0 <= i < |ss| && ss[i].cidr == Canonical(n)
  }

  function Without(ss: seq<Source>, n: Network): seq<Source> {
    if ss == [] then [] else (if ss[0].cidr == Canonical(n) then [] else [ss[0]]) + Without(ss[1..], n)
  }

  /** How many sources come before `n`. */
  function Rank(ss: seq<Source>, n: Network): (k: nat)
    ensures k <= |ss|
  {
    if ss == [] || KeyAtMost(n, Net(ss[0])) then 0 else 1 + Rank(ss[1..], n)
  }

  function Spliced(ss: seq<Source>, e: Source): seq<Source> {
    var k := Rank(ss, Net(e));
    ss[..k] + [e] + ss[k..]
  }

  lemma RankSplits(ss: seq<Source>, n: Network)
    requires Increasing(ss, |ss|)
    ensures forall i :: 0 <= i < Rank(ss, n) ==> KeyBelow(Net(ss[i]), n)
    ensures forall i :: Rank(ss, n) <= i < |ss| ==> KeyAtMost(n, Net(ss[i]))
  {
    if ss != [] {
      assert forall i :: 0 <= i < |ss[1..]| ==> ss[1..][i] == ss[i + 1];
      RankSplits(ss[1..], n);
      forall i | 0 <= i < |ss|
        ensures (i < Rank(ss, n) ==> KeyBelow(Net(ss[i]), n)) && (Rank(ss, n) <= i ==> KeyAtMost(n, Net(ss[i]))) {
        if i > 0 {
          assert ss[1..][i - 1] == ss[i] && KeyBelow(Net(ss[0]), Net(ss[i]));
        }
      }
    }
  }

  lemma RankStep(ss: seq<Source>, e: Source)
    requires ss != []
    ensures KeyAtMost(Net(e), Net(ss[0])) ==> Spliced(ss, e) == [e] + ss
    ensures !KeyAtMost(Net(e), Net(ss[0])) ==> Spliced(ss, e) == [ss[0]] + Spliced(ss[1..], e)
  {
    hide KeyAtMost;
    var k := Rank(ss[1..], Net(e));
    assert ss[1..][..k] == ss[1..k + 1] && ss[1..][k..] == ss[k + 1..];
  }

  lemma InsertInFront(x: Source, xs: seq<Source>)
    requires xs != [] ==> KeyAtMost(Net(x), Net(xs[0]))
    ensures InsertBy(x, xs, Net) == [x] + xs
  {
  }

  lemma InsertPast(x: Source, e: Source, xs: seq<Source>)
    requires !KeyAtMost(Net(x), Net(e)) && (xs != [] ==> KeyAtMost(Net(x), Net(xs[0])))
    ensures InsertBy(x, [e] + xs, Net) == [e, x] + xs
  {
    assert ([e] + xs)[1..] == xs;
    InsertInFront(x, xs);
  }

  lemma SortOne(e: Source)
    ensures SortBy([] + [e], Net) == Spliced([], e) == [e]
  {
    assert SortBy([e], Net) == [e];
  }

  lemma KeyOrder(a: Network, b: Network, c: Network)
    ensures KeyBelow(a, b) && KeyAtMost(c, a) ==> KeyAtMost(c, b)
    ensures KeyBelow(a, b) ==> KeyAtMost(a, b) && !KeyAtMost(b, a)
    ensures KeyAtMost(a, b) || KeyBelow(b, a)
    ensures KeyAtMost(a, b) && KeyAtMost(b, a) ==> a == b
  {
  }

  /** Appending an unlisted entry and sorting puts it at its rank. */
  lemma {:induction false} SortAppended(ss: seq<Source>, e: Source)
    requires Increasing(ss, |ss|)
    requires forall i :: 0 <= i < |ss| ==> Net(ss[i]) != Net(e)
    ensures SortBy(ss + [e], Net) == Spliced(ss, e)
  {
    hide KeyBelow, Rank, Spliced, InsertBy, ValidNetwork;
    if ss == [] {
      SortOne(e);
    } else {
      var first, rest := ss[0], ss[1..];
      assert forall i :: 0 <= i < |rest| ==> rest[i] == ss[i + 1];
      SortAppended(rest, e);
      assert (ss + [e])[1..] == rest + [e];
      assert SortBy(ss + [e], Net) == InsertBy(first, Spliced(rest, e), Net);
      assert rest != [] ==> KeyBelow(Net(first), Net(rest[0]));
      RankStep(ss, e);
      if rest == [] {
        SortOne(e);
      } else {
        RankStep(rest, e);
        KeyOrder(Net(first), Net(rest[0]), Net(e));
      }
      KeyOrder(Net(first), Net(e), Net(e));
      assert [e, first] + rest == [e] + ss;
      if KeyAtMost(Net(e), Net(first)) {
        assert Spliced(rest, e) == [e] + rest;
        InsertPast(first, e, rest);
      } else {
        InsertInFront(first, Spliced(rest, e));
      }
    }
  }

  lemma SplicedAt(ss: seq<Source>, e: Source, i: nat)
    requires i <= |ss|
    ensures var k := Rank(ss, Net(e));
            |Spliced(ss, e)| == |ss| + 1
            && Spliced(ss, e)[i] == if i < k then ss[i] else if i == k then e else ss[i - 1]
  {
  }

  /** Adding an unlisted entry keeps a document valid exactly when the entry overlaps nothing. */
  lemma SplicedValid(d: Document, e: Source, classify: Network -> bool)
    requires ValidDocument(d, classify) && ValidSource(e, classify) && !Listed(d.sources, Net(e))
    ensures ValidDocument(Document(d.mode, Spliced(d.sources, e)), classify) <==> Apart(d.sources, Net(e))
  {
    hide ValidNetwork, Overlaps, Pow2, IsBroad;
    var ss, tt, n, k := d.sources, Spliced(d.sources, e), Net(e), Rank(d.sources, Net(e));
    RankSplits(ss, n);
    forall i | 0 <= i < |ss|
      ensures Net(ss[i]) != n && (i < k ==> KeyBelow(Net(ss[i]), n)) && (i >= k ==> KeyBelow(n, Net(ss[i]))) {
      assert ValidSource(ss[i], classify);
    }
    forall i | 0 <= i <= |ss| ensures tt[i] == if i < k then ss[i] else if i == k then e else ss[i - 1] {
      SplicedAt(ss, e, i);
    }
    forall i | 0 <= i < |ss| ensures Overlaps(n, Net(ss[i])) == Overlaps(Net(ss[i]), n) {
      OverlapsEitherWay(n, Net(ss[i]));
    }
    assert Increasing(tt, |tt|) && Valid(tt, |tt|, classify);
    if Disjoint(tt, |tt|) {
      forall i | 0 <= i < |ss| ensures !Overlaps(n, Net(ss[i])) {
        if i < k { assert !Overlaps(Net(tt[k]), Net(tt[i])); } else { assert !Overlaps(Net(tt[i + 1]), Net(tt[k])); }
      }
    }
  }

  lemma {:induction false} WithoutMembers(ss: seq<Source>, n: Network, s: Source)
    ensures s in Without(ss, n) <==> s in ss && s.cidr != Canonical(n)
  {
    if ss != [] {
      WithoutMembers(ss[1..], n, s);
      assert ss == [ss[0]] + ss[1..];
    }
  }

  lemma ConsValid(x: Source, tail: seq<Source>, classify: Network -> bool)
    requires ValidSource(x, classify) && ValidDocument(Document(Closed, tail), classify)
    requires forall s :: s in tail ==> KeyBelow(Net(x), Net(s)) && !Overlaps(Net(s), Net(x))
    ensures ValidDocument(Document(Closed, [x] + tail), classify)
  {
    hide ValidNetwork, Overlaps, Pow2, IsBroad;
    var out := [x] + tail;
    assert forall i :: 0 < i < |out| ==> out[i] == tail[i - 1];
  }

  /** Removing keeps a document valid. */
  lemma {:induction false} WithoutValid(ss: seq<Source>, n: Network, classify: Network -> bool)
    requires ValidDocument(Document(Closed, ss), classify)
    ensures ValidDocument(Document(Closed, Without(ss, n)), classify)
  {
    hide ValidNetwork, Overlaps, Pow2, IsBroad, KeyBelow;
    if ss != [] {
      var rest := ss[1..];
      assert forall i :: 0 <= i < |rest| ==> rest[i] == ss[i + 1];
      WithoutValid(rest, n, classify);
      if ss[0].cidr != Canonical(n) {
        forall s | s in Without(rest, n) ensures KeyBelow(Net(ss[0]), Net(s)) && !Overlaps(Net(s), Net(ss[0])) {
          WithoutMembers(rest, n, s);
          var i :| 0 <= i < |rest| && rest[i] == s;
          assert ss[i + 1] == s;
        }
        ConsValid(ss[0], Without(rest, n), classify);
      } else {
        assert Without(ss, n) == Without(rest, n);
      }
    }
  }

  lemma {:induction false} WithoutUnlisted(ss: seq<Source>, n: Network)
    requires !Listed(ss, n)
    ensures Without(ss, n) == ss
  {
    if ss != [] {
      assert ss[0].cidr != Canonical(n);
      assert forall i :: 0 <= i < |ss[1..]| ==> ss[1..][i] == ss[i + 1];
      WithoutUnlisted(ss[1..], n);
    }
  }

  lemma {:induction false} WithoutJoin(a: seq<Source>, b: seq<Source>, n: Network)
    ensures Without(a + b, n) == Without(a, n) + Without(b, n)
  {
    if a == [] {
      assert a + b == b;
    } else {
      assert (a + b)[1..] == a[1..] + b;
      WithoutJoin(a[1..], b, n);
    }
  }

  lemma WithoutMiddle(a: seq<Source>, e: Source, b: seq<Source>, n: Network)
    requires e.cidr == Canonical(n)
    ensures Without(a + [e] + b, n) == Without(a + b, n)
  {
    assert a + [e] + b == a + ([e] + b);
    WithoutJoin(a, [e] + b, n);
    assert ([e] + b)[1..] == b;
    WithoutJoin(a, b, n);
  }

  /** Adding an unlisted block and removing it restores the list. */
  lemma AddThenRemove(ss: seq<Source>, n: Network, classify: Network -> bool)
    requires !Listed(ss, n)
    ensures Without(Spliced(ss, EntryOf(n, classify)), n) == ss
  {
    var k := Rank(ss, n);
    WithoutMiddle(ss[..k], EntryOf(n, classify), ss[k..], n);
    assert ss[..k] + ss[k..] == ss;
    WithoutUnlisted(ss, n);
  }

  /** Edit the entries, keyed by their CIDR text, and sort them. */
  method Edit(ss: seq<Source>, action: Action, n: Network, classify: Network -> bool) returns (sorted: seq<Source>)
    ensures ValidDocument(Document(Closed, ss), classify) ==>
              sorted == if action.Remove? then Without(ss, n)
                        else if Listed(ss, n) then ss
                        else Spliced(ss, EntryOf(n, classify))
  {
    hide ValidNetwork, Overlaps, Pow2, IsBroad;
    ghost var valid := ValidDocument(Document(Closed, ss), classify);
    var entries := ss;
    if action.Remove? {
      entries := Without(ss, n);
      if valid { WithoutValid(ss, n, classify); SortedSources(entries); }
    } else {
      var entry := EntryOf(n, classify);
      if i :| 0 <= i < |ss| && ss[i].cidr == Canonical(n) {
        entries := ss[i := entry];
        if valid {
          assert ValidSource(ss[i], classify);
          assert entries == ss;
          SortedSources(entries);
        }
      } else {
        entries := ss + [entry];
        if valid {
          forall i | 0 <= i < |ss| ensures Net(ss[i]) != n {
            assert ValidSource(ss[i], classify);
          }
          SortAppended(ss, entry);
        }
      }
    }
    sorted := SortBy(entries, Net);
  }

  method Candidate(stored: Document, action: Action, cidr: CidrText, allowNonPublic: bool, allowBroad: bool,
                   classify: Network -> bool)
    returns (r: Outcome<Document>)
    requires ValidText(cidr) && forall s :: s in stored.sources ==> ValidText(s.cidr)
    ensures !r.Killed?
    ensures r.Done? ==> ValidDocument(r.value, classify) && r.value.mode == stored.mode
    ensures action.Add? ==>
              var n := Normalize(cidr, allowNonPublic, allowBroad, classify);
              && (r.Done? <==> ValidDocument(stored, classify) && n.Done?
                               && (Listed(stored.sources, n.value) || Apart(stored.sources, n.value)))
              && (r.Done? ==> r.value.sources == if Listed(stored.sources, n.value) then stored.sources
                                                 else Spliced(stored.sources, EntryOf(n.value, classify)))
    ensures action.Remove? ==>
              && (r.Done? <==> ValidDocument(stored, classify) && cidr.Canonical? && cidr.network.prefix != 0)
              && (r.Done? ==> r.value.sources == Without(stored.sources, cidr.network))
  {
    hide ValidNetwork, Overlaps, Pow2, IsBroad;
    var document :- ValidateDocument(stored, classify);
    var nonPublic, broad := action.Remove? || allowNonPublic, action.Remove? || allowBroad;
    var n :- Normalize(cidr, nonPublic, broad, classify);
    var sorted := Edit(document.sources, action, n, classify);
    if action.Remove? {
      WithoutValid(stored.sources, n, classify);
    } else if !Listed(stored.sources, n) {
      assert ValidSource(EntryOf(n, classify), classify);
      SplicedValid(stored, EntryOf(n, classify), classify);
    }
    forall s | s in sorted ensures ValidText(s.cidr) {
      if action.Remove? { WithoutMembers(stored.sources, n, s); }
    }
    r := ValidateDocument(Document(document.mode, sorted), classify);
  }
}
