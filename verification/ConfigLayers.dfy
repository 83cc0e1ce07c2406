/** Layered configuration: a later mapping is merged over an earlier one. */
module ConfigLayers {

  /** A list is replaced as a whole, so it is a leaf like a scalar. */
  datatype Value = Null | Bool(b: bool) | Int(i: int) | Str(s: string) | List(items: seq<Value>)

  datatype Doc = Leaf(value: Value) | Mapping(entries: Entries)

  type Entries = map<string, Doc>

  function Both(key: string, base: Entries, override: Entries): bool {
    key in base && key in override && base[key].Mapping? && override[key].Mapping?
  }

  /** Mappings under the same key are merged; everything else is replaced. */
  function Merged(base: Entries, override: Entries): Entries
    decreases Mapping(override)
  {
    map key | key in base.Keys + override.Keys ::
      if key !in override then base[key]
      else if Both(key, base, override) then Mapping(Merged(base[key].entries, override[key].entries))
      else override[key]
  }

  method MergeMappings(base: Entries, override: Entries) returns (merged: Entries)
    ensures merged == Merged(base, override)
    decreases Mapping(override)
  {
    merged := base;
    var left := override.Keys;
    while left != {}
      invariant left <= override.Keys && base.Keys <= merged.Keys <= base.Keys + override.Keys
      invariant forall key :: key in left ==> (key in merged <==> key in base)
      invariant forall key :: key in override && key !in left ==>
                  key in merged && merged[key] == Merged(base, override)[key]
      invariant forall key :: key in base && (key in left || key !in override) ==> merged[key] == base[key]
      decreases left
    {
      var key :| key in left;
      left := left - {key};
      var value := override[key];
      if key in merged && merged[key].Mapping? && value.Mapping? {
        var inner := MergeMappings(merged[key].entries, value.entries);
        merged := merged[key := Mapping(inner)];
      } else {
        merged := merged[key := value];
      }
    }
  }

  // ---- what a reader of the merged configuration finds

  datatype Found = Reads(value: Value) | Inner | Absent | Blocked

  /** A path leads to a leaf, to a mapping, to a key that a mapping lacks, or below a leaf. */
  function Read(doc: Doc, path: seq<string>): Found {
    if path == [] then (if doc.Leaf? then Reads(doc.value) else Inner)
    else if doc.Leaf? then Blocked
    else if path[0] !in doc.entries then Absent
    else Read(doc.entries[path[0]], path[1..])
  }

  /** A leaf is read where the later layer has it, or where that layer lacks the key and the earlier one has it. */
  lemma {:induction false} LayersRead(base: Entries, override: Entries, path: seq<string>, value: Value)
    ensures Read(Mapping(Merged(base, override)), path) == Reads(value)
       <==> || Read(Mapping(override), path) == Reads(value)
            || (Read(Mapping(override), path) == Absent && Read(Mapping(base), path) == Reads(value))
    decreases path
  {
    if path != [] && Both(path[0], base, override) {
      LayersRead(base[path[0]].entries, override[path[0]].entries, path[1..], value);
    }
  }

  lemma {:induction false} MergedWithItself(a: Entries)
    ensures Merged(a, a) == a
    decreases Mapping(a)
  {
    forall key | key in a && a[key].Mapping? ensures Merged(a[key].entries, a[key].entries) == a[key].entries {
      MergedWithItself(a[key].entries);
    }
  }

  /** Merging a layer a second time changes nothing. */
  lemma {:induction false} MergedTwice(base: Entries, override: Entries)
    ensures Merged(Merged(base, override), override) == Merged(base, override)
    decreases Mapping(override)
  {
    var once := Merged(base, override);
    forall key | key in override && override[key].Mapping?
      ensures once[key].Mapping? && Merged(once[key].entries, override[key].entries) == once[key].entries
    {
      if Both(key, base, override) {
        MergedTwice(base[key].entries, override[key].entries);
      } else {
        MergedWithItself(override[key].entries);
      }
    }
  }

  // ---- three layers

  /** Something in `a` is said nowhere in `c`: a key that `c` lacks, here or in mappings that both have. */
  ghost predicate Adds(a: Entries, c: Entries)
    decreases Mapping(c)
  {
    exists key :: key in a && (key !in c || (Both(key, a, c) && Adds(a[key].entries, c[key].entries)))
  }

  /** Merging over `a` gives back the later layer exactly where `a` adds nothing to it. */
  lemma {:induction false} MergedAdds(a: Entries, c: Entries)
    ensures Merged(a, c) == c <==> !Adds(a, c)
    decreases Mapping(c)
  {
    forall key | key in a && Both(key, a, c)
      ensures Merged(a[key].entries, c[key].entries) == c[key].entries <==> !Adds(a[key].entries, c[key].entries)
    {
      MergedAdds(a[key].entries, c[key].entries);
    }
    forall key
      ensures key in Merged(a, c) <==> key in a || key in c
      ensures key in c ==> (Merged(a, c)[key] == c[key] <==> !(Both(key, a, c) && Adds(a[key].entries, c[key].entries)))
    {
      MergedAt(a, c, key);
    }
    if !Adds(a, c) { assert Merged(a, c).Keys == c.Keys; }
  }

  /** Somewhere the middle layer puts a leaf between two mappings, and the first adds something to the last. */
  ghost predicate Resurfaces(a: Entries, b: Entries, c: Entries)
    decreases Mapping(c), 0
  {
    exists key :: key in a && key in b && key in c && ResurfacesAt(a[key], b[key], c[key])
  }

  ghost predicate ResurfacesAt(a: Doc, b: Doc, c: Doc)
    decreases c, 1
  {
    && a.Mapping? && c.Mapping?
    && if b.Leaf? then Adds(a.entries, c.entries) else Resurfaces(a.entries, b.entries, c.entries)
  }

  function Over(a: Doc, b: Doc): Doc {
    if a.Mapping? && b.Mapping? then Mapping(Merged(a.entries, b.entries)) else b
  }

  lemma MergedAt(a: Entries, b: Entries, key: string)
    ensures key in Merged(a, b) <==> key in a || key in b
    ensures key in a && key in b ==> Merged(a, b)[key] == Over(a[key], b[key])
    ensures key in a && key !in b ==> Merged(a, b)[key] == a[key]
    ensures key !in a && key in b ==> Merged(a, b)[key] == b[key]
  {
  }

  lemma {:induction false} AssociativeAt(a: Doc, b: Doc, c: Doc)
    ensures Over(Over(a, b), c) == Over(a, Over(b, c)) <==> !ResurfacesAt(a, b, c)
    decreases c, 1
  {
    if a.Mapping? && c.Mapping? {
      if b.Mapping? { AssociativeExactly(a.entries, b.entries, c.entries); } else { MergedAdds(a.entries, c.entries); }
    }
  }

  /** Merging is associative exactly where nothing resurfaces. */
  lemma {:induction false} AssociativeExactly(a: Entries, b: Entries, c: Entries)
    ensures Merged(Merged(a, b), c) == Merged(a, Merged(b, c)) <==> !Resurfaces(a, b, c)
    decreases Mapping(c), 0
  {
    hide Over, ResurfacesAt;
    var left, right := Merged(Merged(a, b), c), Merged(a, Merged(b, c));
    forall key
      ensures key in left <==> key in right
      ensures key in left ==>
                (left[key] == right[key] <==>
                   !(key in a && key in b && key in c && ResurfacesAt(a[key], b[key], c[key])))
    {
      MergedAt(a, b, key);
      MergedAt(b, c, key);
      MergedAt(Merged(a, b), c, key);
      MergedAt(a, Merged(b, c), key);
      if key in a && key in b && key in c { AssociativeAt(a[key], b[key], c[key]); }
    }
    hide Merged;
    if !Resurfaces(a, b, c) { assert left == right; }
  }

  /** A first layer comes back through a middle layer that had replaced it by a leaf. */
  lemma NotAssociative()
    ensures var a: Entries := map["k" := Mapping(map["x" := Leaf(Null)])];
            var b: Entries := map["k" := Leaf(Null)];
            var c: Entries := map["k" := Mapping(map[])];
            Merged(Merged(a, b), c) != Merged(a, Merged(b, c))
  {
    var a: Entries := map["k" := Mapping(map["x" := Leaf(Null)])];
    var b: Entries := map["k" := Leaf(Null)];
    var c: Entries := map["k" := Mapping(map[])];
    assert "x" in a["k"].entries && Adds(a["k"].entries, c["k"].entries);
    assert ResurfacesAt(a["k"], b["k"], c["k"]);
    assert Resurfaces(a, b, c);
    AssociativeExactly(a, b, c);
  }
}
