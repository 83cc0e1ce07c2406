/** The configuration parser: lines to tokens, tokens to blocks, and printing that it reads back. */
module Yaml {
  import opened Outcomes
  import opened Texts
  import opened YamlText

  datatype Token = Token(indent: nat, content: string)

  const MAX_BYTES := 1_048_576
  const MAX_LINES := 10_000
  const MAX_DEPTH := 32

  // ---- lines to tokens

  function StripComment(line: string): Outcome<string> {
    match Find(line, '#', None, false)
    case At(i) => Done(line[..i])
    case Never(None) => Done(line)
    case Never(Some(_)) => Raised(UnterminatedQuote)
  }

  function LineToken(line: string): Outcome<Option<Token>> {
    if |LStrip(line)| <= |line| && '\t' in line[..|line| - |LStrip(line)|] then Raised(TabIndentation)
    else
      var uncommented :- StripComment(line);
      var content := RStrip(uncommented);
      if Strip(content) == "" then Done(None)
      else
        var indent := LeadingSpaces(content);
        if indent % 2 != 0 then Raised(OddIndentation)
        else if indent / 2 > MAX_DEPTH then Raised(TooDeep)
        else Done(Some(Token(indent, Strip(content))))
  }

  function TokensFrom(lines: seq<string>, k: nat, before: seq<Token>): Outcome<seq<Token>>
    requires k <= |lines|
    decreases |lines| - k
  {
    if k == |lines| then Done(before)
    else
      var token :- LineToken(lines[k]);
      TokensFrom(lines, k + 1, if token.Some? then before + [token.value] else before)
  }

  // ---- tokens to blocks

  function SplitEntry(content: string): Outcome<(string, string)> {
    match Find(content, ':', None, false)
    case At(i) =>
      if !IsKey(Strip(content[..i])) then Raised(InvalidKey)
      else Done((Strip(content[..i]), Strip(content[i + 1..])))
    case Never(_) => Raised(NotAMappingEntry)
  }

  predicate Dashed(content: string) {
    content != "" && content[0] == '-'
  }

  predicate HasKey(entries: seq<(string, Value)>, key: string) {
    exists i :: 0 <= i < |entries| && entries[i].0 == key
  }

  /** What one block denotes, and the token after it. */
  function Block(tokens: seq<Token>, index: nat, indent: nat, literal: Literal): (r: Outcome<(Value, nat)>)
    requires index < |tokens|
    ensures r.Done? ==> index < r.value.1 <= |tokens|
    decreases |tokens| - index, 1
  {
    if tokens[index].indent != indent then Raised(InvalidIndentation)
    else if Dashed(tokens[index].content) then Items(tokens, index, indent, [], literal)
    else Entries(tokens, index, indent, [], literal)
  }

  function Items(tokens: seq<Token>, index: nat, indent: nat, items: seq<Value>,
                 literal: Literal): (r: Outcome<(Value, nat)>)
    requires index <= |tokens|
    ensures r.Done? ==> index <= r.value.1 <= |tokens|
    ensures r.Done? && index < |tokens| && tokens[index].indent >= indent ==> index < r.value.1
    decreases |tokens| - index, 0
  {
    if index == |tokens| || tokens[index].indent < indent then Done((List(items), index))
    else if tokens[index].indent > indent then Raised(UnexpectedIndentation)
    else if !Dashed(tokens[index].content) then Raised(MixedBlock)
    else
      var text := Strip(tokens[index].content[1..]);
      if text == "" then Raised(NestedList)
      else
        var item :- ParseScalar(text, literal);
        Items(tokens, index + 1, indent, items + [item], literal)
  }

  function Entries(tokens: seq<Token>, index: nat, indent: nat, entries: seq<(string, Value)>,
                   literal: Literal): (r: Outcome<(Value, nat)>)
    requires index <= |tokens|
    ensures r.Done? ==> index <= r.value.1 <= |tokens|
    ensures r.Done? && index < |tokens| && tokens[index].indent >= indent ==> index < r.value.1
    decreases |tokens| - index, 0
  {
    if index == |tokens| || tokens[index].indent < indent then Done((Map(entries), index))
    else if tokens[index].indent > indent then Raised(UnexpectedIndentation)
    else if Dashed(tokens[index].content) then Raised(MixedBlock)
    else
      var (key, text) :- SplitEntry(tokens[index].content);
      if HasKey(entries, key) then Raised(DuplicateKey)
      else if text != "" then
        var v :- ParseScalar(text, literal);
        Entries(tokens, index + 1, indent, entries + [(key, v)], literal)
      else if index + 1 == |tokens| || tokens[index + 1].indent <= indent then Raised(MissingValue)
      else
        var (v, next) :- Block(tokens, index + 1, tokens[index + 1].indent, literal);
        Entries(tokens, next, indent, entries + [(key, v)], literal)
  }

  /** The parser of one block: a loop over its tokens that calls itself for each nested block. */
  method ParseBlock(tokens: seq<Token>, start: nat, indent: nat, literal: Literal) returns (r: Outcome<(Value, nat)>)
    requires start < |tokens|
    ensures r == Block(tokens, start, indent, literal)
    decreases |tokens| - start
  {
    hide ParseScalar, SplitEntry, Strip;
    if tokens[start].indent != indent {
      return Raised(InvalidIndentation);
    }
    var isList := Dashed(tokens[start].content);
    var items: seq<Value> := [];
    var entries: seq<(string, Value)> := [];
    var index := start;
    while index < |tokens|
      invariant start <= index <= |tokens|
      invariant Block(tokens, start, indent, literal) ==
                if isList then Items(tokens, index, indent, items, literal)
                else Entries(tokens, index, indent, entries, literal)
      decreases |tokens| - index
    {
      var Token(current, content) := tokens[index];
      if current < indent {
        break;
      }
      if current > indent {
        return Raised(UnexpectedIndentation);
      }
      if isList {
        if !Dashed(content) {
          return Raised(MixedBlock);
        }
        var text := Strip(content[1..]);
        if text == "" {
          return Raised(NestedList);
        }
        var item :- ParseScalar(text, literal);
        items := items + [item];
        index := index + 1;
        continue;
      }
      if Dashed(content) {
        return Raised(MixedBlock);
      }
      var entry :- SplitEntry(content);
      var (key, text) := entry;
      if HasKey(entries, key) {
        return Raised(DuplicateKey);
      }
      index := index + 1;
      if text != "" {
        var v :- ParseScalar(text, literal);
        entries := entries + [(key, v)];
      } else {
        if index >= |tokens| || tokens[index].indent <= indent {
          return Raised(MissingValue);
        }
        var nested :- ParseBlock(tokens, index, tokens[index].indent, literal);
        var (v, next) := nested;
        entries, index := entries + [(key, v)], next;
      }
    }
    return Done((if isList then List(items) else Map(entries), index));
  }

  method Tokenize(lines: seq<string>) returns (r: Outcome<seq<Token>>)
    ensures r == TokensFrom(lines, 0, [])
  {
    var tokens: seq<Token> := [];
    for k := 0 to |lines|
      invariant TokensFrom(lines, 0, []) == TokensFrom(lines, k, tokens)
    {
      var token :- LineToken(lines[k]);
      if token.Some? {
        tokens := tokens + [token.value];
      }
    }
    return Done(tokens);
  }

  /** What a whole document denotes. */
  function Parse(text: string, literal: Literal): Outcome<Value> {
    if Utf8Length(text) > MAX_BYTES then Raised(TooLarge) else ParseLines(SplitLines(text), literal)
  }

  function ParseLines(lines: seq<string>, literal: Literal): Outcome<Value> {
    if |lines| > MAX_LINES then Raised(TooManyLines)
    else
      var tokens :- TokensFrom(lines, 0, []);
      if tokens == [] then Raised(Reason.Empty)
      else if tokens[0].indent != 0 then Raised(InvalidIndentation)
      else
        var (v, next) :- Block(tokens, 0, 0, literal);
        if next != |tokens| || !v.Map? then Raised(NotAMapping) else Done(v)
  }

  method ParseYaml(text: string, literal: Literal) returns (r: Outcome<Value>)
    ensures r == Parse(text, literal)
  {
    if Utf8Length(text) > MAX_BYTES {
      return Raised(TooLarge);
    }
    var lines := SplitLines(text);
    if |lines| > MAX_LINES {
      return Raised(TooManyLines);
    }
    var tokens :- Tokenize(lines);
    if tokens == [] {
      return Raised(Reason.Empty);
    }
    if tokens[0].indent != 0 {
      return Raised(InvalidIndentation);
    }
    var parsed :- ParseBlock(tokens, 0, 0, literal);
    var (v, next) := parsed;
    if next != |tokens| || !v.Map? {
      return Raised(NotAMapping);
    }
    return Done(v);
  }

  // ---- printing

  predicate DistinctKeys(entries: seq<(string, Value)>) {
    forall i, j :: 0 <= i < j < |entries| ==> entries[i].0 != entries[j].0
  }

  /** What the language can write as a block: a nonempty list of scalars, or a nonempty mapping. */
  predicate Printable(v: Value) {
    match v
    case List(items) => items != [] && forall item :: item in items ==> Scalar(item)
    case Map(entries) =>
      && entries != [] && DistinctKeys(entries)
      && forall e :: e in entries ==> IsKey(e.0) && (Scalar(e.1) || Printable(e.1))
    case _ => false
  }

  predicate PrintableEntry(e: (string, Value)) {
    IsKey(e.0) && (Scalar(e.1) || Printable(e.1))
  }

  /** Blocks under blocks; the outermost counts one. */
  predicate Within(v: Value, depth: nat) {
    match v
    case List(items) => items == [] || depth > 0
    case Map(entries) => entries == [] || (depth > 0 && forall e :: e in entries ==> Within(e.1, depth - 1))
    case _ => true
  }

  function Layout(v: Value, indent: nat): seq<Token>
    requires Printable(v)
    decreases v, 1
  {
    if v.List? then ItemsLayout(v.items, indent) else EntriesLayout(v.entries, indent)
  }

  function ItemsLayout(items: seq<Value>, indent: nat): seq<Token>
    requires forall item :: item in items ==> Scalar(item)
  {
    if items == [] then [] else [Token(indent, "- " + ScalarText(items[0]))] + ItemsLayout(items[1..], indent)
  }

  function EntriesLayout(entries: seq<(string, Value)>, indent: nat): seq<Token>
    requires forall e :: e in entries ==> PrintableEntry(e)
    decreases entries, 0
  {
    if entries == [] then [] else EntryLayout(entries[0], indent) + EntriesLayout(entries[1..], indent)
  }

  function EntryLayout(e: (string, Value), indent: nat): seq<Token>
    requires PrintableEntry(e)
    decreases e, 2
  {
    if Scalar(e.1) then [Token(indent, e.0 + ": " + ScalarText(e.1))]
    else [Token(indent, e.0 + ":")] + Layout(e.1, indent + 2)
  }

  function Line(t: Token): string {
    Spaces(t.indent) + t.content
  }

  function Lines(tokens: seq<Token>): seq<string> {
    seq(|tokens|, i requires 0 <= i < |tokens| => Line(tokens[i]))
  }

  /** A document printed with two-space indentation, every line ended by a line feed. */
  function Print(v: Value): string
    requires Printable(v)
  {
    JoinLines(Lines(Layout(v, 0)))
  }

  // ---- every printed line is read back as its token

  /** Content that neither the comment scan nor stripping touches, on one line. */
  predicate Solid(content: string) {
    Tight(content) && Unbroken(content) && Find(content, '#', None, false) == Never(None)
  }

  predicate SolidToken(t: Token) {
    Solid(t.content) && t.indent % 2 == 0 && t.indent / 2 <= MAX_DEPTH
  }

  lemma LineBack(t: Token)
    requires SolidToken(t)
    ensures LineToken(Line(t)) == Done(Some(t)) && Unbroken(Line(t))
  {
    StripIndented(t.indent, t.content);
    assert Neutral(Spaces(t.indent), '#');
    FindSkips(Spaces(t.indent), t.content, '#');
    var line := Line(t);
    assert line[..|line| - |LStrip(line)|] == Spaces(t.indent);
  }

  lemma {:induction false} LinesBack(tokens: seq<Token>, k: nat)
    requires k <= |tokens| && forall t :: t in tokens ==> SolidToken(t)
    ensures TokensFrom(Lines(tokens), k, tokens[..k]) == Done(tokens)
    decreases |tokens| - k
  {
    if k == |tokens| {
      assert tokens[..k] == tokens;
    } else {
      assert tokens[k] in tokens;
      LineBack(tokens[k]);
      assert tokens[..k] + [tokens[k]] == tokens[..k + 1];
      LinesBack(tokens, k + 1);
    }
  }

  lemma KeyShape(key: string)
    requires IsKey(key)
    ensures Tight(key) && Unbroken(key + ": ") && Neutral(key, ':') && Neutral(key, '#') && !Dashed(key + ":")
  {
    assert key[|key| - 1] in key;
  }

  lemma DashUnbroken()
    ensures Unbroken("- ")
  {
  }

  lemma ItemShape(v: Value, literal: Literal)
    requires Scalar(v) && (v.Str? ==> literal("'" + v.s + "'") == Some(v.s))
    ensures var content := "- " + ScalarText(v);
            && Solid(content) && Dashed(content)
            && ParseScalar(Strip(content[1..]), literal) == Done(v) && Strip(content[1..]) != ""
  {
    hide Unbroken;
    var t := ScalarText(v);
    ScalarTextUnbroken(v);
    UnbrokenJoin("- ", t);
    DashUnbroken();
    ScalarTextShape(v);
    ScalarRoundTrip(v, literal);
    FindSkips("- ", t, '#');
    assert ("- " + t)[1..] == " " + t;
    assert Spaces(1) == " " + Spaces(0);
    StripIndented(1, t);
  }

  lemma SplitAtColon(key: string, rest: string)
    requires IsKey(key)
    ensures SplitEntry(key + ":" + rest) == Done((key, Strip(rest)))
  {
    KeyShape(key);
    var content := key + ":" + rest;
    assert content == key + (":" + rest);
    FindSkips(key, ":" + rest, ':');
    assert content[..|key|] == key && content[|key| + 1..] == rest;
    StripIndented(0, key);
    assert Spaces(0) + key == key;
  }

  lemma ScalarEntrySolid(key: string, v: Value)
    requires IsKey(key) && Scalar(v)
    ensures Solid(key + ": " + ScalarText(v)) && !Dashed(key + ": " + ScalarText(v))
  {
    hide Find, Unbroken;
    var t := ScalarText(v);
    ScalarTextUnbroken(v);
    UnbrokenJoin(key + ": ", t);
    KeyShape(key);
    ScalarTextShape(v);
    FindSkips(key + ": ", t, '#');
  }

  lemma ScalarEntryShape(key: string, v: Value, literal: Literal)
    requires IsKey(key) && Scalar(v) && (v.Str? ==> literal("'" + v.s + "'") == Some(v.s))
    ensures var content := key + ": " + ScalarText(v);
            && Solid(content) && !Dashed(content)
            && SplitEntry(content) == Done((key, ScalarText(v)))
            && ParseScalar(ScalarText(v), literal) == Done(v) && ScalarText(v) != ""
  {
    hide Find, SplitEntry, Unbroken, Solid, Dashed, ParseScalar;
    var t := ScalarText(v);
    ScalarTextShape(v);
    ScalarRoundTrip(v, literal);
    ScalarEntrySolid(key, v);
    SplitAtColon(key, " " + t);
    assert key + ":" + (" " + t) == key + ": " + t;
    assert Spaces(1) == " " + Spaces(0);
    StripIndented(1, t);
  }

  lemma BlockEntryShape(key: string)
    requires IsKey(key)
    ensures Solid(key + ":") && !Dashed(key + ":") && SplitEntry(key + ":") == Done((key, ""))
  {
    KeyShape(key);
    assert (key + ":") + "" == key + ":";
    FindSkips(key + ":", "", '#');
    SplitAtColon(key, "");
  }

  /** `literal` reads a plain string between single quotes. */
  ghost predicate ReadsPlain(literal: Literal) {
    forall s: string :: Plain(s) ==> literal("'" + s + "'") == Some(s)
  }

  lemma {:induction false} LayoutSolid(v: Value, indent: nat, depth: nat, literal: Literal)
    requires Printable(v) && Within(v, depth) && ReadsPlain(literal)
    requires indent % 2 == 0 && indent / 2 + depth <= MAX_DEPTH + 1
    ensures forall t :: t in Layout(v, indent) ==> SolidToken(t) && t.indent >= indent
    ensures Layout(v, indent) != [] && Layout(v, indent)[0].indent == indent
    decreases v, 1
  {
    if v.List? {
      ItemsSolid(v.items, indent, literal);
    } else {
      EntriesSolid(v.entries, indent, depth, literal);
    }
  }

  lemma {:induction false} ItemsSolid(items: seq<Value>, indent: nat, literal: Literal)
    requires ReadsPlain(literal) && indent % 2 == 0 && indent / 2 <= MAX_DEPTH
    requires forall item :: item in items ==> Scalar(item)
    ensures forall t :: t in ItemsLayout(items, indent) ==> SolidToken(t) && t.indent >= indent
  {
    if items != [] {
      assert items[0] in items;
      ItemShape(items[0], literal);
      ItemsSolid(items[1..], indent, literal);
    }
  }

  lemma {:induction false} EntriesSolid(entries: seq<(string, Value)>, indent: nat, depth: nat, literal: Literal)
    requires ReadsPlain(literal) && indent % 2 == 0 && depth > 0 && indent / 2 + depth <= MAX_DEPTH + 1
    requires forall e :: e in entries ==> PrintableEntry(e) && Within(e.1, depth - 1)
    ensures forall t :: t in EntriesLayout(entries, indent) ==> SolidToken(t) && t.indent >= indent
    ensures entries != [] ==> EntriesLayout(entries, indent) != [] && EntriesLayout(entries, indent)[0].indent == indent
    decreases entries, 0
  {
    if entries != [] {
      assert entries[0] in entries;
      EntrySolid(entries[0], indent, depth, literal);
      EntriesSolid(entries[1..], indent, depth, literal);
    }
  }

  lemma {:induction false} EntrySolid(e: (string, Value), indent: nat, depth: nat, literal: Literal)
    requires ReadsPlain(literal) && indent % 2 == 0 && depth > 0 && indent / 2 + depth <= MAX_DEPTH + 1
    requires PrintableEntry(e) && Within(e.1, depth - 1)
    ensures forall t :: t in EntryLayout(e, indent) ==> SolidToken(t) && t.indent >= indent
    ensures EntryLayout(e, indent) != [] && EntryLayout(e, indent)[0].indent == indent
    decreases e, 2
  {
    if Scalar(e.1) {
      ScalarEntryShape(e.0, e.1, literal);
    } else {
      BlockEntryShape(e.0);
      LayoutSolid(e.1, indent + 2, depth - 1, literal);
    }
  }
}
