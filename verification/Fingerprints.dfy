/** The backup fingerprint: a stack traversal of a tree, and the byte string it hashes. */
module Fingerprints {

  newtype byte = x: int | 0 <= x < 256

  type Bytes = seq<byte>

  const SLASH: byte := 47
  const DOT: byte := 46
  const ZERO: byte := 48

  datatype Meta = Meta(mode: nat, uid: nat, gid: nat, links: nat)

  datatype Child = Child(name: Bytes, node: Node)

  /** A directory's children are held in name order; a scan may list them in any other. */
  datatype Node =
    | File(meta: Meta, size: nat, digest: Bytes)
    | Directory(meta: Meta, children: seq<Child>)

  // ---- names

  /** Strict lexicographic order. */
  predicate Below(a: Bytes, b: Bytes) {
    b != [] && (a == [] || a[0] < b[0] || (a[0] == b[0] && Below(a[1..], b[1..])))
  }

  lemma BelowOrder(a: Bytes, b: Bytes, c: Bytes)
    ensures !Below(a, a)
    ensures Below(a, b) && Below(b, c) ==> Below(a, c)
    ensures a == b || Below(a, b) || Below(b, a)
  {
    if a != [] && b != [] {
      BelowOrder(a[1..], b[1..], if c == [] then [] else c[1..]);
      assert a == [a[0]] + a[1..] && b == [b[0]] + b[1..];
    } else if a != [] {
      BelowOrder(a[1..], [], []);
    }
  }

  /** How a directory is sorted: the source compares decoded paths, whose order need not be that of their bytes. */
  type Order = (Bytes, Bytes) -> bool

  ghost predicate IsOrder(below: Order) {
    && (forall a :: !below(a, a))
    && (forall a, b, c :: below(a, b) && below(b, c) ==> below(a, c))
    && (forall a, b :: a == b || below(a, b) || below(b, a))
  }

  lemma BytesAreOrdered()
    ensures IsOrder(Below)
  {
    forall a, b, c
      ensures !Below(a, a) && (Below(a, b) && Below(b, c) ==> Below(a, c)) && (a == b || Below(a, b) || Below(b, a)) {
      BelowOrder(a, b, c);
    }
  }

  predicate Ordered(cs: seq<Child>, below: Order) {
    forall i, j :: 0 <= i < j < |cs| ==> below(cs[i].name, cs[j].name)
  }

  predicate ValidName(n: Bytes) {
    n != [] && n != [DOT] && SLASH !in n
  }

  predicate ValidNode(n: Node, below: Order) {
    n.Directory? ==>
      Ordered(n.children, below) && forall c :: c in n.children ==> ValidName(c.name) && ValidNode(c.node, below)
  }

  // ---- the recursive definition

  type Path = seq<Bytes>

  datatype Entry = Entry(path: Path, node: Node) {
    /** What the entry contributes: everything but the children. */
    function Own(): Node {
      if node.File? then node else Directory(node.meta, [])
    }
  }

  function Size(n: Node): nat {
    if n.File? then 1 else 1 + Sizes(n.children)
  }

  function Sizes(cs: seq<Child>): nat {
    if cs == [] then 0 else Size(cs[0].node) + Sizes(cs[1..])
  }

  /** The sorted pre-order of a tree. */
  function Preorder(path: Path, n: Node): seq<Entry>
    decreases n, 1
  {
    [Entry(path, n)] + if n.File? then [] else Forest(path, n.children)
  }

  function Forest(path: Path, cs: seq<Child>): seq<Entry>
    decreases cs, 0
  {
    if cs == [] then [] else Preorder(path + [cs[0].name], cs[0].node) + Forest(path, cs[1..])
  }

  lemma PreorderCounts(path: Path, n: Node)
    ensures |Preorder(path, n)| == Size(n)
    decreases n, 1
  {
    if n.Directory? {
      ForestCounts(path, n.children);
    }
  }

  lemma ForestCounts(path: Path, cs: seq<Child>)
    ensures |Forest(path, cs)| == Sizes(cs)
    decreases cs, 0
  {
    if cs != [] {
      PreorderCounts(path + [cs[0].name], cs[0].node);
      ForestCounts(path, cs[1..]);
    }
  }

  // ---- the bytes

  function Decimal(n: nat): Bytes {
    (if n < 10 then [] else Decimal(n / 10)) + [ZERO + (n % 10) as byte]
  }

  function Join(path: Path): Bytes
    requires path != []
  {
    if |path| == 1 then path[0] else path[0] + [SLASH] + Join(path[1..])
  }

  function PathBytes(path: Path): Bytes {
    if path == [] then [DOT] else Join(path)
  }

  const FILE: Bytes := [102, 105, 108, 101]
  const DIRECTORY: Bytes := [100, 105, 114, 101, 99, 116, 111, 114, 121]

  function Fields(e: Entry): seq<Bytes> {
    var m := e.node.meta;
    [ if e.node.Directory? then DIRECTORY else FILE,
      PathBytes(e.path),
      Decimal(m.mode), Decimal(m.uid), Decimal(m.gid), Decimal(m.links),
      Decimal(if e.node.File? then e.node.size else 0),
      if e.node.File? then e.node.digest else [] ]
  }

  /** The last `width` base-256 digits, most significant first. */
  function BigEndian(n: nat, width: nat): Bytes {
    if width == 0 then [] else BigEndian(n / 256, width - 1) + [(n % 256) as byte]
  }

  const LENGTH_LIMIT: nat := 0x1_0000_0000_0000_0000

  function Framed(fields: seq<Bytes>): Bytes {
    if fields == [] then [] else BigEndian(|fields[0]|, 8) + fields[0] + Framed(fields[1..])
  }

  function AllFields(entries: seq<Entry>): seq<Bytes> {
    if entries == [] then [] else Fields(entries[0]) + AllFields(entries[1..])
  }

  function HashedBytes(root: Node): Bytes {
    Framed(AllFields(Preorder([], root)))
  }

  /** No field reaches the length at which an 8-byte prefix overflows. */
  predicate Encodable(entries: seq<Entry>) {
    forall e :: e in entries ==> forall f :: f in Fields(e) ==> |f| < LENGTH_LIMIT
  }

  lemma FramedAppend(a: seq<Bytes>, b: seq<Bytes>)
    ensures Framed(a + b) == Framed(a) + Framed(b)
  {
    if a == [] {
      assert a + b == b;
    } else {
      assert (a + b)[1..] == a[1..] + b;
      FramedAppend(a[1..], b);
    }
  }

  lemma AllFieldsAppend(a: seq<Entry>, b: seq<Entry>)
    ensures AllFields(a + b) == AllFields(a) + AllFields(b)
  {
    if a == [] {
      assert a + b == b;
    } else {
      assert (a + b)[1..] == a[1..] + b;
      AllFieldsAppend(a[1..], b);
    }
  }

  // ---- the traversal

  function Insert(c: Child, cs: seq<Child>, below: Order): seq<Child> {
    if cs == [] || below(c.name, cs[0].name) then [c] + cs else [cs[0]] + Insert(c, cs[1..], below)
  }

  function Sorted(cs: seq<Child>, below: Order): seq<Child> {
    if cs == [] then [] else Insert(cs[0], Sorted(cs[1..], below), below)
  }

  lemma WithoutAt(cs: seq<Child>, k: nat, below: Order)
    requires k < |cs| && Ordered(cs, below)
    ensures Ordered(cs[..k] + cs[k + 1..], below)
    ensures multiset(cs) == multiset([cs[k]]) + multiset(cs[..k] + cs[k + 1..])
  {
    var rest := cs[..k] + cs[k + 1..];
    assert cs == cs[..k] + [cs[k]] + cs[k + 1..];
    forall i, j | 0 <= i < j < |rest| ensures below(rest[i].name, rest[j].name) {
      assert rest[i] == cs[if i < k then i else i + 1] && rest[j] == cs[if j < k then j else j + 1];
    }
  }

  lemma {:induction false} Locate(listing: seq<Child>, children: seq<Child>) returns (k: nat)
    requires listing != [] && multiset(listing) == multiset(children)
    ensures k < |children| && children[k] == listing[0]
    ensures multiset(listing[1..]) == multiset(children[..k] + children[k + 1..])
  {
    var c := listing[0];
    assert c in multiset(children);
    k :| 0 <= k < |children| && children[k] == c;
    assert listing == [c] + listing[1..];
    assert children == children[..k] + [c] + children[k + 1..];
    assert multiset(listing[1..]) == multiset(listing) - multiset([c]);
    assert multiset(children[..k] + children[k + 1..]) == multiset(children) - multiset([c]);
  }

  /** Sorting a scan restores the name order, whatever order the scan had. */
  lemma {:induction false} SortedScan(listing: seq<Child>, children: seq<Child>, below: Order)
    requires IsOrder(below) && Ordered(children, below) && multiset(listing) == multiset(children)
    ensures Sorted(listing, below) == children
  {
    if listing == [] {
      assert |multiset(children)| == 0;
    } else {
      var c := listing[0];
      var k := Locate(listing, children);
      var rest := children[..k] + children[k + 1..];
      WithoutAt(children, k, below);
      SortedScan(listing[1..], rest, below);
      assert children[..k] + [c] + children[k + 1..] == children;
      InsertAt(children[..k], c, children[k + 1..], below);
    }
  }

  /** Where a child stands in an ordered list. */
  lemma OrderedAround(before: seq<Child>, c: Child, after: seq<Child>, below: Order)
    requires IsOrder(below) && Ordered(before + [c] + after, below)
    ensures after != [] ==> below(c.name, after[0].name)
    ensures before != [] ==> !below(c.name, before[0].name) && Ordered(before[1..] + [c] + after, below)
  {
    var all := before + [c] + after;
    var k := |before|;
    assert all[k] == c;
    if after != [] { assert all[k + 1] == after[0]; }
    if before != [] {
      assert all[0] == before[0];
      assert all[1..] == before[1..] + [c] + after;
    }
  }

  lemma {:induction false} InsertAt(before: seq<Child>, c: Child, after: seq<Child>, below: Order)
    requires IsOrder(below) && Ordered(before + [c] + after, below)
    ensures Insert(c, before + after, below) == before + [c] + after
  {
    hide IsOrder, Ordered;
    OrderedAround(before, c, after, below);
    if before == [] {
      assert before + after == after;
    } else {
      assert (before + after)[1..] == before[1..] + after;
      InsertAt(before[1..], c, after, below);
    }
  }

  /** What the stack still has to visit, top first. */
  ghost function Remaining(pending: seq<Entry>): seq<Entry> {
    if pending == [] then []
    else Preorder(pending[|pending| - 1].path, pending[|pending| - 1].node) + Remaining(pending[..|pending| - 1])
  }

  function Weight(pending: seq<Entry>): nat {
    if pending == [] then 0
    else Size(pending[|pending| - 1].node) + Weight(pending[..|pending| - 1])
  }

  function Push(pending: seq<Entry>, path: Path, cs: seq<Child>): seq<Entry> {
    if cs == [] then pending
    else Push(pending, path, cs[1..]) + [Entry(path + [cs[0].name], cs[0].node)]
  }

  lemma PushVisits(pending: seq<Entry>, path: Path, cs: seq<Child>)
    ensures Remaining(Push(pending, path, cs)) == Forest(path, cs) + Remaining(pending)
    ensures Weight(Push(pending, path, cs)) == Sizes(cs) + Weight(pending)
  {
    if cs != [] {
      PushVisits(pending, path, cs[1..]);
      assert Push(pending, path, cs)[..|Push(pending, path, cs)| - 1] == Push(pending, path, cs[1..]);
    }
  }

  lemma FramedNext(fields: seq<Bytes>, i: nat)
    requires i < |fields|
    ensures Framed(fields[..i + 1]) == Framed(fields[..i]) + BigEndian(|fields[i]|, 8) + fields[i]
  {
    hide BigEndian;
    assert fields[..i + 1] == fields[..i] + [fields[i]];
    FramedAppend(fields[..i], [fields[i]]);
  }

  /** Append the fields of one entry, each behind its length. */
  method Feed(hashed: Bytes, fields: seq<Bytes>) returns (fed: Bytes)
    ensures fed == hashed + Framed(fields)
  {
    hide BigEndian;
    fed := hashed;
    for i := 0 to |fields|
      invariant fed == hashed + Framed(fields[..i])
    {
      FramedNext(fields, i);
      fed := fed + BigEndian(|fields[i]|, 8);
      fed := fed + fields[i];
    }
    assert fields[..|fields|] == fields;
  }

  /** Push the children last first, so that the first is on top. */
  method PushReversed(pending: seq<Entry>, path: Path, children: seq<Child>) returns (pushed: seq<Entry>)
    ensures pushed == Push(pending, path, children)
  {
    pushed := pending;
    for i := |children| downto 0
      invariant pushed == Push(pending, path, children[i..])
    {
      assert children[i..][1..] == children[i + 1..];
      pushed := pushed + [Entry(path + [children[i].name], children[i].node)];
    }
    assert children[0..] == children;
  }

  lemma PushKeepsValid(pending: seq<Entry>, path: Path, cs: seq<Child>, below: Order)
    requires forall e :: e in pending ==> ValidNode(e.node, below)
    requires forall c :: c in cs ==> ValidNode(c.node, below)
    ensures forall e :: e in Push(pending, path, cs) ==> ValidNode(e.node, below)
  {
  }

  /** The stack once its top has been visited. */
  function Popped(pending: seq<Entry>): seq<Entry>
    requires pending != []
  {
    var current, rest := pending[|pending| - 1], pending[..|pending| - 1];
    if current.node.File? then rest else Push(rest, current.path, current.node.children)
  }

  lemma {:induction false} Visit(visited: seq<Entry>, pending: seq<Entry>)
    requires pending != []
    ensures visited + Remaining(pending) == visited + [pending[|pending| - 1]] + Remaining(Popped(pending))
    ensures Weight(Popped(pending)) < Weight(pending)
  {
    var current, rest := pending[|pending| - 1], pending[..|pending| - 1];
    if current.node.Directory? {
      PushVisits(rest, current.path, current.node.children);
    }
    var tail := Remaining(Popped(pending));
    assert Entry(current.path, current.node) == current;
    assert Remaining(pending) == [current] + tail;
  }

  lemma {:induction false} PoppedValid(pending: seq<Entry>, below: Order)
    requires pending != [] && forall e :: e in pending ==> ValidNode(e.node, below)
    ensures forall e :: e in Popped(pending) ==> ValidNode(e.node, below)
  {
    var current, rest := pending[|pending| - 1], pending[..|pending| - 1];
    assert forall e :: e in rest ==> e in pending;
    if current.node.Directory? {
      PushKeepsValid(rest, current.path, current.node.children, below);
    }
  }

  lemma FedAlso(visited: seq<Entry>, e: Entry)
    ensures Framed(AllFields(visited + [e])) == Framed(AllFields(visited)) + Framed(Fields(e))
  {
    AllFieldsAppend(visited, [e]);
    assert AllFields([e]) == Fields(e);
    FramedAppend(AllFields(visited), Fields(e));
  }

  /**
   * The stack loop hashes the framed fields of the sorted pre-order and counts its nodes, in whatever order `scan`
   * lists the directories.
   */
  method FingerprintTree(root: Node, below: Order, scan: seq<Child> -> seq<Child>) returns (hashed: Bytes, entries: nat)
    requires IsOrder(below) && ValidNode(root, below) && forall cs :: multiset(scan(cs)) == multiset(cs)
    ensures hashed == HashedBytes(root)
    ensures entries == Size(root)
  {
    hashed, entries := [], 0;
    var pending := [Entry([], root)];
    ghost var visited: seq<Entry> := [];
    assert Remaining(pending) == Preorder([], root);
    while pending != []
      invariant visited + Remaining(pending) == Preorder([], root)
      invariant hashed == Framed(AllFields(visited)) && entries == |visited|
      invariant forall e :: e in pending ==> ValidNode(e.node, below)
      decreases Weight(pending)
    {
      Visit(visited, pending);
      PoppedValid(pending, below);
      var current := pending[|pending| - 1];
      pending := pending[..|pending| - 1];
      hashed := Feed(hashed, Fields(current));
      entries := entries + 1;
      FedAlso(visited, current);
      visited := visited + [current];
      if current.node.Directory? {
        var children := current.node.children;
        SortedScan(scan(children), children, below);
        pending := PushReversed(pending, current.path, Sorted(scan(children), below));
      }
    }
    assert visited + Remaining(pending) == visited;
    PreorderCounts([], root);
  }

  // ---- the bytes determine the tree

  function Value(b: Bytes): nat {
    if b == [] then 0 else Value(b[..|b| - 1]) * 256 + b[|b| - 1] as nat
  }

  function Power(width: nat): nat {
    if width == 0 then 1 else 256 * Power(width - 1)
  }

  lemma BigEndianValue(n: nat, width: nat)
    requires n < Power(width)
    ensures |BigEndian(n, width)| == width && Value(BigEndian(n, width)) == n
  {
    if width > 0 {
      BigEndianValue(n / 256, width - 1);
      var b := BigEndian(n, width);
      assert b[..|b| - 1] == BigEndian(n / 256, width - 1);
    }
  }

  /** The length prefixes make the framing uniquely readable. */
  lemma {:induction false} FramedInjective(a: seq<Bytes>, b: seq<Bytes>)
    requires forall f :: f in a ==> |f| < LENGTH_LIMIT
    requires forall f :: f in b ==> |f| < LENGTH_LIMIT
    requires Framed(a) == Framed(b)
    ensures a == b
  {
    assert Power(8) == LENGTH_LIMIT;
    if a != [] { BigEndianValue(|a[0]|, 8); }
    if b != [] { BigEndianValue(|b[0]|, 8); }
    if a != [] && b != [] {
      var x, y := Framed(a), Framed(b);
      assert x[..8] == BigEndian(|a[0]|, 8) && y[..8] == BigEndian(|b[0]|, 8);
      var n := |a[0]|;
      assert |b[0]| == n;
      assert x[8..8 + n] == a[0] && y[8..8 + n] == b[0];
      assert x[8 + n..] == Framed(a[1..]) && y[8 + n..] == Framed(b[1..]);
      FramedInjective(a[1..], b[1..]);
      assert a == [a[0]] + a[1..] && b == [b[0]] + b[1..];
    }
  }

  lemma {:induction false} DecimalInjective(m: nat, n: nat)
    requires Decimal(m) == Decimal(n)
    ensures m == n
  {
    var a, b := Decimal(m), Decimal(n);
    assert a[|a| - 1] == b[|b| - 1];
    assert a[..|a| - 1] == (if m < 10 then [] else Decimal(m / 10));
    assert b[..|b| - 1] == (if n < 10 then [] else Decimal(n / 10));
    if m >= 10 && n >= 10 {
      DecimalInjective(m / 10, n / 10);
    }
  }

  function FirstSlash(s: Bytes): nat {
    if s == [] || s[0] == SLASH then 0 else 1 + FirstSlash(s[1..])
  }

  lemma FirstSlashAfter(a: Bytes, rest: Bytes)
    requires SLASH !in a && (rest == [] || rest[0] == SLASH)
    ensures FirstSlash(a + rest) == |a|
  {
    if a == [] {
      assert a + rest == rest;
    } else {
      assert (a + rest)[1..] == a[1..] + rest;
      FirstSlashAfter(a[1..], rest);
    }
  }

  /** The first component is what comes before the first slash. */
  lemma FirstComponent(p: Path)
    requires p != [] && SLASH !in p[0]
    ensures FirstSlash(Join(p)) == |p[0]| && |p[0]| <= |Join(p)|
    ensures Join(p)[..|p[0]|] == p[0]
    ensures |p| == 1 <==> |Join(p)| == |p[0]|
    ensures |p| > 1 ==> Join(p)[|p[0]| + 1..] == Join(p[1..])
  {
    if |p| == 1 {
      assert p[0] + [] == p[0];
      FirstSlashAfter(p[0], []);
    } else {
      assert Join(p) == p[0] + ([SLASH] + Join(p[1..]));
      FirstSlashAfter(p[0], [SLASH] + Join(p[1..]));
    }
  }

  predicate ValidPath(p: Path) {
    forall k :: 0 <= k < |p| ==> ValidName(p[k])
  }

  lemma {:induction false} JoinInjective(p: Path, q: Path)
    requires p != [] && q != [] && ValidPath(p) && ValidPath(q) && Join(p) == Join(q)
    ensures p == q
  {
    FirstComponent(p);
    FirstComponent(q);
    assert p == [p[0]] + p[1..] && q == [q[0]] + q[1..];
    if |p| > 1 {
      JoinInjective(p[1..], q[1..]);
    }
  }

  lemma PathBytesInjective(p: Path, q: Path)
    requires ValidPath(p) && ValidPath(q) && PathBytes(p) == PathBytes(q)
    ensures p == q
  {
    if p != [] && q != [] {
      JoinInjective(p, q);
    } else if p != [] {
      DotIsNoPath(p);
    } else if q != [] {
      DotIsNoPath(q);
    }
  }

  lemma DotIsNoPath(p: Path)
    requires p != [] && ValidPath(p)
    ensures Join(p) != [DOT]
  {
    FirstComponent(p);
  }

  // ---- from entries back to the tree

  /** What an entry's fields say: its path, its kind, its metadata, and a file's size and digest. */
  function Keys(es: seq<Entry>): seq<(Path, Node)> {
    seq(|es|, i requires 0 <= i < |es| => (es[i].path, es[i].Own()))
  }

  predicate ValidPaths(es: seq<Entry>) {
    forall k :: 0 <= k < |es| ==> ValidPath(es[k].path)
  }

  lemma FieldsInjective(a: Entry, b: Entry)
    requires ValidPath(a.path) && ValidPath(b.path) && Fields(a) == Fields(b)
    ensures a.path == b.path && a.Own() == b.Own()
  {
    var f, g := Fields(a), Fields(b);
    assert f[0] == g[0] && f[1] == g[1] && f[7] == g[7];
    PathBytesInjective(a.path, b.path);
    assert f[2] == g[2] && f[3] == g[3] && f[4] == g[4] && f[5] == g[5] && f[6] == g[6];
    DecimalInjective(a.node.meta.mode, b.node.meta.mode);
    DecimalInjective(a.node.meta.uid, b.node.meta.uid);
    DecimalInjective(a.node.meta.gid, b.node.meta.gid);
    DecimalInjective(a.node.meta.links, b.node.meta.links);
    DecimalInjective(if a.node.File? then a.node.size else 0, if b.node.File? then b.node.size else 0);
    assert |FILE| != |DIRECTORY|;
  }

  lemma {:induction false} AllFieldsInjective(a: seq<Entry>, b: seq<Entry>)
    requires ValidPaths(a) && ValidPaths(b) && AllFields(a) == AllFields(b)
    ensures Keys(a) == Keys(b)
  {
    if a != [] && b != [] {
      assert AllFields(a)[..8] == Fields(a[0]) && AllFields(b)[..8] == Fields(b[0]);
      assert AllFields(a)[8..] == AllFields(a[1..]) && AllFields(b)[8..] == AllFields(b[1..]);
      FieldsInjective(a[0], b[0]);
      AllFieldsInjective(a[1..], b[1..]);
      assert Keys(a) == [Keys(a)[0]] + Keys(a[1..]) && Keys(b) == [Keys(b)[0]] + Keys(b[1..]);
    }
  }

  /** What follows a directory in a pre-order does not start below it. */
  predicate Beyond(path: Path, r: seq<(Path, Node)>) {
    r == [] || !(path < r[0].0)
  }

  lemma {:induction false} SameTree(path: Path, m: Node, n: Node, r: seq<(Path, Node)>, s: seq<(Path, Node)>)
    requires Keys(Preorder(path, m)) + r == Keys(Preorder(path, n)) + s
    requires Beyond(path, r) && Beyond(path, s)
    ensures m == n && r == s
    decreases m, 1
  {
    SplitHead(path, m, r);
    SplitHead(path, n, s);
    if m.Directory? {
      SameForest(path, m.children, n.children, r, s);
    }
  }

  lemma {:induction false} SplitHead(path: Path, n: Node, r: seq<(Path, Node)>)
    ensures var a := Keys(Preorder(path, n)) + r;
            a[0] == (path, Entry(path, n).Own()) && a[1..] == if n.File? then r else Keys(Forest(path, n.children)) + r
  {
    if n.Directory? {
      var rest := Forest(path, n.children);
      assert Preorder(path, n) == [Entry(path, n)] + rest;
      assert Keys(Preorder(path, n))[1..] == Keys(rest);
    }
  }

  lemma {:induction false} SameForest(path: Path, cs: seq<Child>, ds: seq<Child>, r: seq<(Path, Node)>,
                                      s: seq<(Path, Node)>)
    requires Keys(Forest(path, cs)) + r == Keys(Forest(path, ds)) + s
    requires Beyond(path, r) && Beyond(path, s)
    ensures cs == ds && r == s
    decreases cs, 0
  {
    SplitFirst(path, cs, r);
    SplitFirst(path, ds, s);
    if cs != [] && ds != [] {
      var below := path + [cs[0].name];
      assert below[|path|] == (path + [ds[0].name])[|path|];
      var r', s' := Keys(Forest(path, cs[1..])) + r, Keys(Forest(path, ds[1..])) + s;
      SameTree(below, cs[0].node, ds[0].node, r', s');
      SameForest(path, cs[1..], ds[1..], r, s);
      assert cs == [cs[0]] + cs[1..] && ds == [ds[0]] + ds[1..];
    }
  }

  /** A forest before `r`, as its first tree and what follows it. */
  lemma {:induction false} SplitFirst(path: Path, cs: seq<Child>, r: seq<(Path, Node)>)
    requires Beyond(path, r)
    ensures var a := Keys(Forest(path, cs)) + r;
            if cs == [] then a == r
            else
              var below, rest := path + [cs[0].name], Keys(Forest(path, cs[1..])) + r;
              && a == Keys(Preorder(below, cs[0].node)) + rest
              && a != [] && a[0].0 == below && path < below
              && Beyond(below, rest)
  {
    if cs != [] {
      var below := path + [cs[0].name];
      assert Preorder(below, cs[0].node)[0] == Entry(below, cs[0].node);
      NextIsBeyond(path, cs[0].name, cs[1..], r);
    }
  }

  lemma {:induction false} ForestStarts(path: Path, cs: seq<Child>)
    ensures cs != [] ==> Forest(path, cs) != [] && Forest(path, cs)[0] == Entry(path + [cs[0].name], cs[0].node)
  {
  }

  lemma {:induction false} NextIsBeyond(path: Path, name: Bytes, cs: seq<Child>, r: seq<(Path, Node)>)
    requires Beyond(path, r)
    ensures Beyond(path + [name], Keys(Forest(path, cs)) + r)
  {
    ForestStarts(path, cs);
    if cs == [] {
      assert Keys(Forest(path, cs)) + r == r;
    }
  }

  lemma {:induction false} PreorderPaths(path: Path, n: Node, below: Order)
    requires ValidPath(path) && ValidNode(n, below)
    ensures ValidPaths(Preorder(path, n))
    decreases n, 1
  {
    if n.Directory? { ForestPaths(path, n.children, below); }
  }

  lemma {:induction false} ForestPaths(path: Path, cs: seq<Child>, below: Order)
    requires ValidPath(path) && forall c :: c in cs ==> ValidName(c.name) && ValidNode(c.node, below)
    ensures ValidPaths(Forest(path, cs))
    decreases cs, 0
  {
    if cs != [] {
      assert cs[0] in cs;
      PreorderPaths(path + [cs[0].name], cs[0].node, below);
      ForestPaths(path, cs[1..], below);
    }
  }

  lemma {:induction false} FieldsBounded(es: seq<Entry>)
    requires Encodable(es)
    ensures forall f :: f in AllFields(es) ==> |f| < LENGTH_LIMIT
  {
    if es != [] {
      assert es[0] in es;
      FieldsBounded(es[1..]);
    }
  }

  /** Two trees are hashed from the same bytes only if they are the same tree. */
  lemma FingerprintInjective(m: Node, n: Node, below: Order)
    requires ValidNode(m, below) && ValidNode(n, below)
    requires Encodable(Preorder([], m)) && Encodable(Preorder([], n))
    ensures HashedBytes(m) == HashedBytes(n) <==> m == n
  {
    var a, b := Preorder([], m), Preorder([], n);
    if HashedBytes(m) == HashedBytes(n) {
      FieldsBounded(a);
      FieldsBounded(b);
      FramedInjective(AllFields(a), AllFields(b));
      PreorderPaths([], m, below);
      PreorderPaths([], n, below);
      AllFieldsInjective(a, b);
      assert Keys(a) + [] == Keys(b) + [];
      SameTree([], m, n, [], []);
    }
  }
}
