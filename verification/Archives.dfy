/** Backup archives: every member and every hard link stays below the expected root. */
module Archives {
  import opened Outcomes

  const MAX_MEMBERS := 2_000_000

  datatype Kind = Folder | Regular | HardLink(target: string) | SymbolicLink | Special | Unknown

  datatype Member = Member(name: string, kind: Kind)

  datatype Reason = PathInvalid | PathEscape | MemberLimit | SpecialForbidden | TypeInvalid | RootInvalid

  type Outcome<+T> = Result<T, Reason>

  // ---- names

  /** The components between slashes, of which there is always at least one. */
  function Split(s: string): (r: seq<string>)
    ensures r != []
  {
    if s == "" then [""]
    else
      var rest := Split(s[1..]);
      if s[0] == '/' then [""] + rest else [[s[0]] + rest[0]] + rest[1..]
  }

  /** Empty components and single dots mean nothing, as in Python's PurePosixPath. */
  function Meaningful(components: seq<string>): seq<string> {
    if components == [] then []
    else (if components[0] == "" || components[0] == "." then [] else [components[0]]) + Meaningful(components[1..])
  }

  function SafeMemberName(value: string, expected: seq<string>): (r: Outcome<seq<string>>)
    ensures !r.Killed?
  {
    if value == "" || value[0] == '/' || '\0' in value then Raised(PathInvalid)
    else
      var name := Meaningful(Split(value));
      if ".." in name then Raised(PathInvalid)
      else if !(expected <= name) then Raised(PathEscape)
      else Done(name)
  }

  /** Where following the components leads from `at`; nowhere once they climb out of the extraction directory. */
  function Walk(at: seq<string>, components: seq<string>): Option<seq<string>>
    decreases |components|
  {
    if components == [] then Some(at)
    else
      var c, rest := components[0], components[1..];
      if c == "" || c == "." then Walk(at, rest)
      else if c == ".." then (if at == [] then None else Walk(at[..|at| - 1], rest))
      else Walk(at + [c], rest)
  }

  lemma {:induction false} WalkDown(at: seq<string>, components: seq<string>)
    requires ".." !in Meaningful(components)
    ensures Walk(at, components) == Some(at + Meaningful(components))
    decreases |components|
  {
    if components == [] {
      assert at + [] == at;
    } else {
      var c, rest := components[0], components[1..];
      var here: seq<string> := if c == "" || c == "." then [] else [c];
      assert Meaningful(components) == here + Meaningful(rest);
      assert forall d :: d in Meaningful(rest) ==> d in Meaningful(components);
      if here == [c] {
        assert c in Meaningful(components);
        WalkDown(at + [c], rest);
        assert at + [c] + Meaningful(rest) == at + Meaningful(components);
      } else {
        WalkDown(at, rest);
        assert Meaningful(components) == Meaningful(rest);
      }
    }
  }

  /** An accepted name leads to the place it was compared as, at or below the expected root. */
  lemma SafeNameConfined(value: string, expected: seq<string>)
    requires SafeMemberName(value, expected).Done?
    ensures Walk([], Split(value)) == Some(SafeMemberName(value, expected).value)
    ensures expected <= SafeMemberName(value, expected).value
  {
    WalkDown([], Split(value));
    assert [] + Meaningful(Split(value)) == Meaningful(Split(value));
  }

  // ---- archives

  predicate Inside(value: string, expected: seq<string>) {
    SafeMemberName(value, expected).Done?
  }

  predicate AcceptedMember(m: Member, expected: seq<string>) {
    && Inside(m.name, expected)
    && match m.kind
       case Folder => true
       case Regular => true
       case HardLink(target) => Inside(target, expected)
       case _ => false
  }

  predicate IsRoot(m: Member, expected: seq<string>) {
    SafeMemberName(m.name, expected) == Done(expected)
  }

  function Roots(members: seq<Member>, expected: seq<string>): nat {
    if members == [] then 0
    else Roots(members[..|members| - 1], expected) + if IsRoot(members[|members| - 1], expected) then 1 else 0
  }

  method ValidateArchive(members: seq<Member>, expected: seq<string>) returns (r: Outcome<nat>)
    ensures !r.Killed?
    ensures r.Done? <==>
              && |members| <= MAX_MEMBERS && (forall m :: m in members ==> AcceptedMember(m, expected))
              && Roots(members, expected) == 1
    ensures r.Done? ==> r.value == |members| > 0
  {
    hide SafeMemberName;
    var count, roots := 0, 0;
    for k := 0 to |members|
      invariant count == k <= MAX_MEMBERS && roots == Roots(members[..k], expected)
      invariant forall i :: 0 <= i < k ==> AcceptedMember(members[i], expected)
    {
      var member := members[k];
      assert member in members && members[..k + 1][..k] == members[..k];
      count := count + 1;
      if count > MAX_MEMBERS {
        return Raised(MemberLimit);
      }
      var name :- SafeMemberName(member.name, expected);
      if name == expected {
        roots := roots + 1;
      }
      if member.kind.SymbolicLink? || member.kind.Special? {
        return Raised(SpecialForbidden);
      }
      if member.kind.HardLink? {
        var _ :- SafeMemberName(member.kind.target, expected);
      } else if !member.kind.Folder? && !member.kind.Regular? {
        return Raised(TypeInvalid);
      }
    }
    assert members[..|members|] == members;
    if count == 0 || roots != 1 {
      return Raised(RootInvalid);
    }
    return Done(count);
  }

  /** Nothing in an accepted archive, and nothing a hard link in it refers to, lies outside the expected root. */
  lemma AcceptedConfined(m: Member, expected: seq<string>)
    requires AcceptedMember(m, expected)
    ensures var place := Walk([], Split(m.name)); place.Some? && expected <= place.value
    ensures m.kind.HardLink? ==> var place := Walk([], Split(m.kind.target)); place.Some? && expected <= place.value
    ensures !m.kind.SymbolicLink?
  {
    SafeNameConfined(m.name, expected);
    if m.kind.HardLink? { SafeNameConfined(m.kind.target, expected); }
  }
}
