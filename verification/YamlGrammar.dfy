/** The language of the configuration parser, stated without a parser: which token lists denote which value. */
module YamlGrammar {
  import opened Outcomes
  import opened Texts
  import opened YamlText
  import opened Yaml

  predicate ItemLine(t: Token, indent: nat, item: Value, literal: Literal) {
    && t.indent == indent && Dashed(t.content)
    && Strip(t.content[1..]) != "" && ParseScalar(Strip(t.content[1..]), literal) == Done(item)
  }

  /** Exactly these tokens are one block of `v`, all of its own lines indented by `indent`. */
  ghost predicate Denotes(tokens: seq<Token>, indent: nat, v: Value, literal: Literal)
    decreases |tokens|, 2
  {
    match v
    case List(items) =>
      items != [] && |tokens| == |items| && forall i :: 0 <= i < |items| ==>
        ItemLine(tokens[i], indent, items[i], literal)
    case Map(entries) => entries != [] && DistinctKeys(entries) && EntriesDenote(tokens, indent, entries, literal)
    case _ => false
  }

  /** The tokens fall into consecutive pieces, one for each entry, with none left over. */
  ghost predicate EntriesDenote(tokens: seq<Token>, indent: nat, entries: seq<(string, Value)>, literal: Literal)
    decreases |tokens|, 1
  {
    if entries == [] then tokens == []
    else exists n :: 0 < n <= |tokens| && EntryDenotes(tokens[..n], indent, entries[0], literal)
                  && EntriesDenote(tokens[n..], indent, entries[1..], literal)
  }

  /** A line with a scalar, or a line with a key alone and a deeper block after it. */
  ghost predicate EntryDenotes(tokens: seq<Token>, indent: nat, e: (string, Value), literal: Literal)
    decreases |tokens|, 0
  {
    && tokens != [] && tokens[0].indent == indent && !Dashed(tokens[0].content)
    && match SplitEntry(tokens[0].content)
       case Done((key, text)) =>
         && key == e.0
         && (if text != "" then |tokens| == 1 && ParseScalar(text, literal) == Done(e.1)
             else |tokens| > 1 && tokens[1].indent > indent && Denotes(tokens[1..], tokens[1].indent, e.1, literal))
       case _ => false
  }

  predicate Ends(tokens: seq<Token>, index: nat, indent: nat)
    requires index <= |tokens|
  {
    index == |tokens| || tokens[index].indent < indent
  }

  // ---- what is parsed is in the language

  lemma {:induction false} BlockDenotes(tokens: seq<Token>, index: nat, indent: nat, v: Value, next: nat,
                                        literal: Literal)
    requires index < |tokens| && Block(tokens, index, indent, literal) == Done((v, next))
    ensures Denotes(tokens[index..next], indent, v, literal) && Ends(tokens, next, indent)
    decreases |tokens| - index, 2
  {
    if Dashed(tokens[index].content) {
      ItemsDenote(tokens, index, indent, [], v, next, literal);
    } else {
      EntriesAreDenoted(tokens, index, indent, [], v, next, literal);
      assert v.entries[0..] == v.entries;
    }
  }

  lemma {:induction false} ItemsDenote(tokens: seq<Token>, index: nat, indent: nat, before: seq<Value>, v: Value,
                                       next: nat, literal: Literal)
    requires index <= |tokens| && Items(tokens, index, indent, before, literal) == Done((v, next))
    ensures v.List? && |v.items| == |before| + next - index && v.items[..|before|] == before
            && Ends(tokens, next, indent)
    ensures forall i :: index <= i < next ==> ItemLine(tokens[i], indent, v.items[|before| + i - index], literal)
    decreases |tokens| - index
  {
    hide Strip, ParseScalar;
    if index < |tokens| && tokens[index].indent >= indent {
      var item := ParseScalar(Strip(tokens[index].content[1..]), literal).value;
      ItemsDenote(tokens, index + 1, indent, before + [item], v, next, literal);
      assert v.items[..|before|] == v.items[..|before| + 1][..|before|] == before;
      assert v.items[|before|] == v.items[..|before| + 1][|before|] == item;
    }
  }

  lemma {:induction false} EntriesAreDenoted(
      tokens: seq<Token>, index: nat, indent: nat, before: seq<(string, Value)>, v: Value, next: nat, literal: Literal)
    requires index <= |tokens| && Entries(tokens, index, indent, before, literal) == Done((v, next))
             && DistinctKeys(before)
    ensures v.Map? && before <= v.entries && DistinctKeys(v.entries) && Ends(tokens, next, indent)
    ensures EntriesDenote(tokens[index..next], indent, v.entries[|before|..], literal)
    decreases |tokens| - index, 1
  {
    hide Strip, ParseScalar, SplitEntry, Denotes, Block;
    if index < |tokens| && tokens[index].indent >= indent {
      var n, e := EntryTaken(tokens, index, indent, before, v, next, literal);
      assert DistinctKeys(before + [e]);
      hide HasKey, DistinctKeys, EntryDenotes, EntriesDenote, Entries;
      EntriesAreDenoted(tokens, n, indent, before + [e], v, next, literal);
      Regroup(tokens, index, n, next, indent, before, e, v.entries, literal);
    } else {
      assert tokens[index..next] == [] && v.entries[|before|..] == [];
    }
  }

  lemma Regroup(tokens: seq<Token>, index: nat, n: nat, next: nat, indent: nat,
                before: seq<(string, Value)>, e: (string, Value), all: seq<(string, Value)>, literal: Literal)
    requires index <= n <= next <= |tokens| && before + [e] <= all
    requires EntryDenotes(tokens[index..n], indent, e, literal)
    requires EntriesDenote(tokens[n..next], indent, all[|before| + 1..], literal)
    ensures before <= all && EntriesDenote(tokens[index..next], indent, all[|before|..], literal)
  {
    hide EntryDenotes, EntriesDenote;
    EntriesJoin(tokens[index..n], tokens[n..next], indent, e, all[|before| + 1..], literal);
    assert tokens[index..n] + tokens[n..next] == tokens[index..next];
    assert [e] + all[|before| + 1..] == all[|before|..];
  }

  /** One turn of the loop takes exactly one entry. */
  lemma {:induction false} EntryTaken(
      tokens: seq<Token>, index: nat, indent: nat, before: seq<(string, Value)>, v: Value, next: nat, literal: Literal)
    returns (n: nat, e: (string, Value))
    requires index < |tokens| && tokens[index].indent >= indent
    requires Entries(tokens, index, indent, before, literal) == Done((v, next))
    ensures index < n <= |tokens| && EntryDenotes(tokens[index..n], indent, e, literal) && !HasKey(before, e.0)
    ensures Entries(tokens, n, indent, before + [e], literal) == Done((v, next))
    decreases |tokens| - index, 0
  {
    hide Strip, ParseScalar, SplitEntry, Denotes, Block, HasKey;
    var (key, text) := SplitEntry(tokens[index].content).value;
    if text != "" {
      n, e := index + 1, (key, ParseScalar(text, literal).value);
    } else {
      var (nested, after) := Block(tokens, index + 1, tokens[index + 1].indent, literal).value;
      n, e := after, (key, nested);
      BlockDenotes(tokens, index + 1, tokens[index + 1].indent, nested, after, literal);
      assert tokens[index..n][1..] == tokens[index + 1..n];
    }
  }

  lemma EntriesJoin(a: seq<Token>, b: seq<Token>, indent: nat, e: (string, Value), rest: seq<(string, Value)>,
                    literal: Literal)
    requires EntryDenotes(a, indent, e, literal) && EntriesDenote(b, indent, rest, literal)
    ensures EntriesDenote(a + b, indent, [e] + rest, literal)
  {
    assert a != [];
    hide EntryDenotes;
    assert (a + b)[..|a|] == a && (a + b)[|a|..] == b && ([e] + rest)[1..] == rest;
  }

  lemma EntriesStart(tokens: seq<Token>, indent: nat, entries: seq<(string, Value)>, literal: Literal)
    requires EntriesDenote(tokens, indent, entries, literal) && (entries != [] || tokens != [])
    ensures tokens != [] && tokens[0].indent == indent && !Dashed(tokens[0].content)
  {
    hide Denotes, SplitEntry, ParseScalar;
    var n: nat :| 0 < n <= |tokens| && EntryDenotes(tokens[..n], indent, entries[0], literal);
    assert tokens[..n][0] == tokens[0];
  }

  // ---- everything in the language is parsed

  lemma {:induction false} BlockParsed(tokens: seq<Token>, index: nat, indent: nat, v: Value, next: nat,
                                       literal: Literal)
    requires index < next <= |tokens| && Denotes(tokens[index..next], indent, v, literal) && Ends(tokens, next, indent)
    ensures Block(tokens, index, indent, literal) == Done((v, next))
    decreases next - index, 2
  {
    hide ParseScalar, SplitEntry, Strip;
    var own := tokens[index..next];
    assert own[0] == tokens[index];
    if v.List? {
      assert ItemLine(own[0], indent, v.items[0], literal);
      forall i | index <= i < next ensures ItemLine(tokens[i], indent, v.items[i - index], literal) {
        assert own[i - index] == tokens[i];
      }
      assert v.items[..0] == [];
      ItemsParsed(tokens, index, indent, [], v.items, next, literal);
      assert [] + v.items == v.items;
    } else {
      EntriesStart(own, indent, v.entries, literal);
      assert [] + v.entries == v.entries;
      EntriesParsed(tokens, index, indent, [], v.entries, next, literal);
    }
  }

  lemma {:induction false} ItemsParsed(
      tokens: seq<Token>, index: nat, indent: nat, before: seq<Value>, items: seq<Value>, next: nat, literal: Literal)
    requires index <= next <= |tokens| && |items| == next - index && Ends(tokens, next, indent)
    requires forall i :: index <= i < next ==> ItemLine(tokens[i], indent, items[i - index], literal)
    ensures Items(tokens, index, indent, before, literal) == Done((List(before + items), next))
    decreases next - index
  {
    hide ParseScalar, Strip;
    if index == next {
      assert before + items == before;
    } else {
      assert ItemLine(tokens[index], indent, items[0], literal);
      ItemsParsed(tokens, index + 1, indent, before + [items[0]], items[1..], next, literal);
      assert before + [items[0]] + items[1..] == before + items;
    }
  }

  lemma {:induction false} EntriesParsed(
      tokens: seq<Token>, index: nat, indent: nat, before: seq<(string, Value)>, entries: seq<(string, Value)>,
      next: nat, literal: Literal)
    requires index <= next <= |tokens| && DistinctKeys(before + entries) && Ends(tokens, next, indent)
    requires EntriesDenote(tokens[index..next], indent, entries, literal)
    ensures Entries(tokens, index, indent, before, literal) == Done((Map(before + entries), next))
    decreases next - index, 1
  {
    hide Denotes, EntryDenotes, Entries, DistinctKeys;
    if entries == [] {
      assert before + entries == before && |tokens[index..next]| == 0;
      BlockEnds(tokens, index, indent, literal);
    } else {
      var n := FirstPiece(tokens, index, next, indent, entries, literal);
      EntryStart(tokens, n, next, indent, entries[1..], literal);
      EntryParsed(tokens, index, indent, before, entries, n, literal);
      assert before + [entries[0]] + entries[1..] == before + entries;
      EntriesParsed(tokens, n, indent, before + [entries[0]], entries[1..], next, literal);
    }
  }

  lemma BlockEnds(tokens: seq<Token>, index: nat, indent: nat, literal: Literal)
    requires index <= |tokens| && Ends(tokens, index, indent)
    ensures forall entries :: Entries(tokens, index, indent, entries, literal) == Done((Map(entries), index))
  {
  }

  lemma FirstPiece(tokens: seq<Token>, index: nat, next: nat, indent: nat, entries: seq<(string, Value)>,
                   literal: Literal)
    returns (n: nat)
    requires index <= next <= |tokens| && entries != [] && EntriesDenote(tokens[index..next], indent, entries, literal)
    ensures index < n <= next && EntryDenotes(tokens[index..n], indent, entries[0], literal)
    ensures EntriesDenote(tokens[n..next], indent, entries[1..], literal)
  {
    hide Denotes, EntryDenotes;
    var own := tokens[index..next];
    var m: nat :| 0 < m <= |own| && EntryDenotes(own[..m], indent, entries[0], literal)
                  && EntriesDenote(own[m..], indent, entries[1..], literal);
    n := index + m;
    assert own[..m] == tokens[index..n] && own[m..] == tokens[n..next];
  }

  /** After an entry comes another of the same block, or the block is over. */
  lemma EntryStart(tokens: seq<Token>, index: nat, next: nat, indent: nat, entries: seq<(string, Value)>,
                   literal: Literal)
    requires index <= next <= |tokens| && Ends(tokens, next, indent)
             && EntriesDenote(tokens[index..next], indent, entries, literal)
    ensures index < |tokens| ==> tokens[index].indent <= indent
  {
    if index < next {
      EntriesStart(tokens[index..next], indent, entries, literal);
    }
  }

  lemma {:induction false} EntryParsed(
      tokens: seq<Token>, index: nat, indent: nat, before: seq<(string, Value)>, entries: seq<(string, Value)>, n: nat,
      literal: Literal)
    requires index < n <= |tokens| && entries != [] && DistinctKeys(before + entries)
    requires EntryDenotes(tokens[index..n], indent, entries[0], literal)
             && (n < |tokens| ==> tokens[n].indent <= indent)
    ensures Entries(tokens, index, indent, before, literal)
              == Entries(tokens, n, indent, before + [entries[0]], literal)
    decreases n - index, 0
  {
    hide ParseScalar, SplitEntry, Strip, HasKey, Denotes;
    var own, e := tokens[index..n], entries[0];
    assert own[0] == tokens[index];
    NewKey(before, entries);
    var (key, text) := SplitEntry(tokens[index].content).value;
    assert (key, e.1) == e;
    if text == "" {
      assert own[1] == tokens[index + 1] && own[1..] == tokens[index + 1..n];
      BlockParsed(tokens, index + 1, tokens[index + 1].indent, e.1, n, literal);
    }
  }

  lemma NewKey(before: seq<(string, Value)>, entries: seq<(string, Value)>)
    requires DistinctKeys(before + entries) && entries != []
    ensures !HasKey(before, entries[0].0)
  {
    var all := before + entries;
    forall i | 0 <= i < |before| ensures before[i].0 != entries[0].0 {
      assert all[i] == before[i] && all[|before|] == entries[0];
    }
  }

  /** The parser accepts exactly the language: it takes a text for `v` if and only if its lines denote `v`. */
  lemma ParsesTheLanguage(text: string, v: Value, literal: Literal)
    ensures Parse(text, literal) == Done(v)
       <==> Utf8Length(text) <= MAX_BYTES && InLanguage(SplitLines(text), v, literal)
  {
    LinesOfTheLanguage(SplitLines(text), v, literal);
  }

  ghost predicate InLanguage(lines: seq<string>, v: Value, literal: Literal) {
    && |lines| <= MAX_LINES && v.Map? && TokensFrom(lines, 0, []).Done?
    && Denotes(TokensFrom(lines, 0, []).value, 0, v, literal)
  }

  lemma LinesOfTheLanguage(lines: seq<string>, v: Value, literal: Literal)
    ensures ParseLines(lines, literal) == Done(v) <==> InLanguage(lines, v, literal)
  {
    hide Denotes, Block;
    var read := TokensFrom(lines, 0, []);
    if read.Done? {
      var tokens := read.value;
      if tokens == [] {
        NothingDenoted(v, literal);
      } else {
        assert tokens[0..|tokens|] == tokens;
        if Denotes(tokens, 0, v, literal) {
          DenotedIndent(tokens, 0, v, literal);
          BlockParsed(tokens, 0, 0, v, |tokens|, literal);
        }
        if ParseLines(lines, literal) == Done(v) {
          BlockDenotes(tokens, 0, 0, v, |tokens|, literal);
        }
      }
    }
  }

  lemma NothingDenoted(v: Value, literal: Literal)
    ensures !Denotes([], 0, v, literal)
  {
  }

  lemma DenotedIndent(tokens: seq<Token>, indent: nat, v: Value, literal: Literal)
    requires Denotes(tokens, indent, v, literal)
    ensures tokens != [] && tokens[0].indent == indent
  {
    if v.List? {
      assert ItemLine(tokens[0], indent, v.items[0], literal);
    } else {
      EntriesStart(tokens, indent, v.entries, literal);
    }
  }

  // ---- printed values are in the language

  lemma {:induction false} LayoutDenotes(v: Value, indent: nat, literal: Literal)
    requires ReadsPlain(literal) && Printable(v)
    ensures Denotes(Layout(v, indent), indent, v, literal)
    decreases v, 1
  {
    if v.List? {
      ItemsLayoutDenote(v.items, indent, literal);
    } else {
      assert forall e :: e in v.entries ==> PrintableEntry(e);
      EntriesLayoutDenote(v.entries, indent, literal);
    }
  }

  lemma {:induction false} ItemsLayoutDenote(items: seq<Value>, indent: nat, literal: Literal)
    requires ReadsPlain(literal) && forall item :: item in items ==> Scalar(item)
    ensures var layout := ItemsLayout(items, indent);
            |layout| == |items| && forall i :: 0 <= i < |items| ==> ItemLine(layout[i], indent, items[i], literal)
  {
    hide ParseScalar, Strip, ScalarText, Scalar, Find;
    if items != [] {
      assert items[0] in items;
      PlainRead(items[0], literal);
      ItemShape(items[0], literal);
      ItemsLayoutDenote(items[1..], indent, literal);
    }
  }

  lemma {:induction false} EntriesLayoutDenote(entries: seq<(string, Value)>, indent: nat, literal: Literal)
    requires ReadsPlain(literal) && forall e :: e in entries ==> PrintableEntry(e)
    ensures EntriesDenote(EntriesLayout(entries, indent), indent, entries, literal)
    decreases entries, 0
  {
    hide ReadsPlain, PrintableEntry, EntryDenotes;
    if entries != [] {
      assert entries[0] in entries;
      EntryLayoutDenotes(entries[0], indent, literal);
      EntriesLayoutDenote(entries[1..], indent, literal);
      EntriesJoin(EntryLayout(entries[0], indent), EntriesLayout(entries[1..], indent), indent, entries[0],
                  entries[1..], literal);
      assert [entries[0]] + entries[1..] == entries;
    }
  }

  lemma {:induction false} EntryLayoutDenotes(e: (string, Value), indent: nat, literal: Literal)
    requires ReadsPlain(literal) && PrintableEntry(e)
    ensures EntryDenotes(EntryLayout(e, indent), indent, e, literal)
    decreases e, 2
  {
    hide ParseScalar, SplitEntry, Strip, Find, IsKey, Denotes;
    if Scalar(e.1) {
      PlainRead(e.1, literal);
      ScalarEntryShape(e.0, e.1, literal);
    } else {
      BlockEntryShape(e.0);
      LayoutDenotes(e.1, indent + 2, literal);
      DenotedIndent(Layout(e.1, indent + 2), indent + 2, e.1, literal);
      assert EntryLayout(e, indent)[1..] == Layout(e.1, indent + 2);
    }
  }

  lemma PlainRead(v: Value, literal: Literal)
    requires ReadsPlain(literal) && Scalar(v)
    ensures v.Str? ==> literal("'" + v.s + "'") == Some(v.s)
  {
  }

  lemma LinesUnbroken(tokens: seq<Token>)
    requires forall t :: t in tokens ==> SolidToken(t)
    ensures forall line :: line in Lines(tokens) ==> Unbroken(line)
  {
    hide Unbroken;
    forall line | line in Lines(tokens) ensures Unbroken(line) {
      var i :| 0 <= i < |tokens| && line == Line(tokens[i]);
      LineBack(tokens[i]);
    }
  }

  /** Printing a configuration within the depth, line and byte bounds and parsing the text gives it back. */
  lemma RoundTrip(v: Value, literal: Literal)
    requires v.Map? && Printable(v) && Within(v, MAX_DEPTH + 1)
    requires |Layout(v, 0)| <= MAX_LINES && Utf8Length(Print(v)) <= MAX_BYTES
    requires ReadsPlain(literal)
    ensures Parse(Print(v), literal) == Done(v)
  {
    var tokens := Layout(v, 0);
    LayoutSolid(v, 0, MAX_DEPTH + 1, literal);
    assert tokens[..0] == [];
    LinesBack(tokens, 0);
    LayoutDenotes(v, 0, literal);
    LinesUnbroken(tokens);
    SplitJoined(Lines(tokens));
    ParsesTheLanguage(Print(v), v, literal);
  }
}
