/** Characters, whitespace, quotes and scalars of the configuration language. */
module YamlText {
  import opened Outcomes

  datatype Value =
    | Null
    | Bool(b: bool)
    | Int(i: int)
    | Str(s: string)
    | List(items: seq<Value>)
    | Map(entries: seq<(string, Value)>)

  datatype Reason =
    | UnterminatedQuote
    | InvalidKey
    | NotAMappingEntry
    | MissingScalar
    | InvalidQuotedScalar
    | UnsupportedConstruct
    | TabIndentation
    | OddIndentation
    | TooDeep
    | TooManyLines
    | TooLarge
    | Empty
    | InvalidIndentation
    | UnexpectedIndentation
    | MixedBlock
    | NestedList
    | DuplicateKey
    | MissingValue
    | NotAMapping

  type Outcome<+T> = Result<T, Reason>

  // ---- whitespace, as Python's str.isspace and str.strip

  predicate IsSpace(c: char) {
    || '\U{0009}' <= c <= '\U{000d}' || '\U{001c}' <= c <= '\U{0020}' || c == '\U{0085}' || c == '\U{00a0}'
    || c == '\U{1680}'
    || '\U{2000}' <= c <= '\U{200a}' || c == '\U{2028}' || c == '\U{2029}' || c == '\U{202f}' || c == '\U{205f}'
    || c == '\U{3000}'
  }

  function LStrip(s: string): string {
    if s != "" && IsSpace(s[0]) then LStrip(s[1..]) else s
  }

  function RStrip(s: string): string {
    if s != "" && IsSpace(s[|s| - 1]) then RStrip(s[..|s| - 1]) else s
  }

  function Strip(s: string): string {
    RStrip(LStrip(s))
  }

  /** Neither end is whitespace. */
  predicate Tight(s: string) {
    s != "" && !IsSpace(s[0]) && !IsSpace(s[|s| - 1])
  }

  function Spaces(n: nat): string {
    if n == 0 then "" else " " + Spaces(n - 1)
  }

  function LeadingSpaces(s: string): nat {
    if s != "" && s[0] == ' ' then 1 + LeadingSpaces(s[1..]) else 0
  }

  lemma {:induction false} StripIndented(n: nat, s: string)
    requires Tight(s)
    ensures LStrip(Spaces(n) + s) == s && RStrip(Spaces(n) + s) == Spaces(n) + s
    ensures Strip(Spaces(n) + s) == s && LeadingSpaces(Spaces(n) + s) == n
    ensures |Spaces(n)| == n && forall c :: c in Spaces(n) ==> c == ' '
  {
    if n == 0 {
      assert Spaces(0) + s == s;
    } else {
      StripIndented(n - 1, s);
      assert (Spaces(n) + s)[1..] == Spaces(n - 1) + s;
    }
  }

  // ---- quotes

  datatype Hit = At(index: nat) | Never(quote: Option<char>)

  function Shift(n: nat, h: Hit): Hit {
    match h
    case At(i) => At(n + i)
    case Never(_) => h
  }

  /** The quote and escape state after one character. */
  function Next(c: char, quote: Option<char>, escaped: bool): (Option<char>, bool) {
    if escaped then (quote, false)
    else if c == '\\' && quote == Some('"') then (quote, true)
    else if c == '\'' || c == '"' then
      (if quote.None? then Some(c) else if quote.value == c then None else quote, false)
    else (quote, false)
  }

  /** The first `target` outside quotes; without one, the quote left open. */
  function Find(s: string, target: char, quote: Option<char>, escaped: bool): (h: Hit)
    ensures h.At? ==> h.index < |s| && s[h.index] == target
  {
    if s == "" then Never(quote)
    else if !escaped && quote.None? && s[0] == target then At(0)
    else
      var (q, e) := Next(s[0], quote, escaped);
      Shift(1, Find(s[1..], target, q, e))
  }

  method FindOutsideQuotes(s: string, target: char) returns (h: Hit)
    requires target != '\'' && target != '"' && target != '\\'
    ensures h == Find(s, target, None, false)
  {
    var quote: Option<char> := None;
    var escaped := false;
    for i := 0 to |s|
      invariant Find(s, target, None, false) == Shift(i, Find(s[i..], target, quote, escaped))
    {
      var c := s[i];
      assert s[i..][0] == c && s[i..][1..] == s[i + 1..];
      if escaped {
        escaped := false;
        continue;
      }
      if c == '\\' && quote == Some('"') {
        escaped := true;
        continue;
      }
      if c == '\'' || c == '"' {
        if quote.None? {
          quote := Some(c);
        } else if quote.value == c {
          quote := None;
        }
      } else if c == target && quote.None? {
        return At(i);
      }
    }
    return Never(quote);
  }

  predicate Neutral(s: string, target: char) {
    '\'' !in s && '"' !in s && target !in s
  }

  lemma {:induction false} FindSkips(a: string, b: string, target: char)
    requires Neutral(a, target)
    ensures Find(a + b, target, None, false) == Shift(|a|, Find(b, target, None, false))
  {
    if a == "" {
      assert a + b == b;
    } else {
      assert (a + b)[1..] == a[1..] + b;
      assert a[0] in a && forall c :: c in a[1..] ==> c in a;
      FindSkips(a[1..], b, target);
    }
  }

  /** A string that a pair of single quotes can hold unescaped. */
  predicate Plain(s: string) {
    forall c :: c in s ==> c != '\'' && c != '"' && c != '\\' && c != '\0' && c !in LINE_BREAKS
  }

  /** Where Python's splitlines breaks a line. */
  const LINE_BREAKS: set<char> := {
    '\U{000a}', '\U{000b}', '\U{000c}', '\U{000d}', '\U{001c}', '\U{001d}', '\U{001e}', '\U{0085}', '\U{2028}',
    '\U{2029}'
  }

  predicate Unbroken(s: string) {
    forall c :: c in s ==> c !in LINE_BREAKS
  }

  /** Where the first line of a text ends. */
  function LineEnd(text: string): (n: nat)
    ensures n <= |text| && Unbroken(text[..n]) && (n < |text| ==> text[n] in LINE_BREAKS)
  {
    if text == "" || text[0] in LINE_BREAKS then 0
    else
      var n := 1 + LineEnd(text[1..]);
      assert text[..n] == [text[0]] + text[1..][..n - 1];
      n
  }

  /** The lines of a text, as Python's str.splitlines: a carriage return and a line feed are one break. */
  function SplitLines(text: string): seq<string>
    decreases |text|
  {
    if text == "" then []
    else
      var n := LineEnd(text);
      if n == |text| then [text]
      else
        var next := if text[n] == '\r' && n + 1 < |text| && text[n + 1] == '\n' then n + 2 else n + 1;
        [text[..n]] + SplitLines(text[next..])
  }

  function JoinLines(lines: seq<string>): string {
    if lines == [] then "" else lines[0] + "\n" + JoinLines(lines[1..])
  }

  lemma {:induction false} LineEndBefore(line: string, rest: string)
    requires Unbroken(line) && rest != "" && rest[0] in LINE_BREAKS
    ensures LineEnd(line + rest) == |line|
  {
    if line == "" {
      assert line + rest == rest;
    } else {
      assert line[0] in line && forall c :: c in line[1..] ==> c in line;
      assert (line + rest)[1..] == line[1..] + rest;
      LineEndBefore(line[1..], rest);
    }
  }

  lemma SplitFirst(line: string, rest: string)
    requires Unbroken(line)
    ensures SplitLines(line + "\n" + rest) == [line] + SplitLines(rest)
  {
    hide Unbroken;
    var text := line + "\n" + rest;
    assert text == line + ("\n" + rest);
    LineEndBefore(line, "\n" + rest);
    assert text[..|line|] == line && text[|line|] == '\n' && text[|line| + 1..] == rest;
  }

  lemma {:induction false} SplitJoined(lines: seq<string>)
    requires forall line :: line in lines ==> Unbroken(line)
    ensures SplitLines(JoinLines(lines)) == lines
  {
    hide Unbroken;
    if lines != [] {
      SplitFirst(lines[0], JoinLines(lines[1..]));
      SplitJoined(lines[1..]);
    }
  }

  lemma {:induction false} FindInsideQuotes(a: string, b: string, target: char)
    requires Plain(a)
    ensures Find(a + "'" + b, target, Some('\''), false) == Shift(|a| + 1, Find(b, target, None, false))
  {
    if a == "" {
      assert (a + "'" + b)[1..] == b;
    } else {
      assert (a + "'" + b)[0] == a[0] && (a + "'" + b)[1..] == a[1..] + "'" + b;
      assert a[0] in a && forall c :: c in a[1..] ==> c in a;
      FindInsideQuotes(a[1..], b, target);
    }
  }

  lemma FindQuoted(a: string, b: string, target: char)
    requires Plain(a) && target != '\''
    ensures Find("'" + a + "'" + b, target, None, false) == Shift(|a| + 2, Find(b, target, None, false))
  {
    assert ("'" + a + "'" + b)[1..] == a + "'" + b;
    FindInsideQuotes(a, b, target);
  }

  // ---- keys

  predicate KeyStart(c: char) {
    'A' <= c <= 'Z' || 'a' <= c <= 'z' || c == '_'
  }

  predicate KeyChar(c: char) {
    KeyStart(c) || '0' <= c <= '9'
  }

  predicate IsKey(s: string) {
    s != "" && KeyStart(s[0]) && forall c :: c in s ==> KeyChar(c)
  }

  // ---- scalars

  predicate Digits(s: string) {
    s != "" && forall c :: c in s ==> '0' <= c <= '9'
  }

  /** The pattern `-?(0|[1-9][0-9]*)`. */
  predicate IsIntText(s: string) {
    var d := if s != "" && s[0] == '-' then s[1..] else s;
    Digits(d) && (d[0] == '0' ==> |d| == 1)
  }

  function DigitsValue(s: string): int {
    if s == "" then 0 else DigitsValue(s[..|s| - 1]) * 10 + (s[|s| - 1] as int - '0' as int)
  }

  function IntValue(s: string): int
    requires IsIntText(s)
  {
    if s[0] == '-' then -DigitsValue(s[1..]) else DigitsValue(s)
  }

  function Decimal(n: nat): string {
    (if n < 10 then "" else Decimal(n / 10)) + [('0' as int + n % 10) as char]
  }

  function IntText(i: int): string {
    if i < 0 then "-" + Decimal(-i) else Decimal(i)
  }

  lemma {:induction false} DecimalRead(n: nat)
    ensures Digits(Decimal(n)) && DigitsValue(Decimal(n)) == n
    ensures Decimal(n)[0] == '0' ==> n == 0 && |Decimal(n)| == 1
  {
    if n >= 10 {
      DecimalRead(n / 10);
      assert Decimal(n)[..|Decimal(n)| - 1] == Decimal(n / 10);
      assert Decimal(n)[0] == Decimal(n / 10)[0];
    } else {
      assert Decimal(n)[..0] == "";
    }
  }

  predicate Scalar(v: Value) {
    match v
    case List(items) => items == []
    case Map(entries) => entries == []
    case Str(s) => Plain(s)
    case _ => true
  }

  const UNSUPPORTED: set<char> := {'[', '{', '&', '*', '!', '|', '>'}

  /** `literal` evaluates a quoted Python literal, and fails on anything but a string. */
  type Literal = string -> Option<string>

  function ParseScalar(text: string, literal: Literal): Outcome<Value> {
    if text == "" then Raised(MissingScalar)
    else if text == "null" || text == "~" then Done(Null)
    else if text == "true" then Done(Bool(true))
    else if text == "false" then Done(Bool(false))
    else if text == "[]" then Done(List([]))
    else if text == "{}" then Done(Map([]))
    else if text[0] == '\'' || text[0] == '"' then
      match literal(text)
      case Some(s) => Done(Str(s))
      case None => Raised(InvalidQuotedScalar)
    else if IsIntText(text) then Done(Int(IntValue(text)))
    else if text[0] in UNSUPPORTED then Raised(UnsupportedConstruct)
    else Done(Str(text))
  }

  function ScalarText(v: Value): string
    requires Scalar(v)
  {
    match v
    case Null => "null"
    case Bool(b) => if b then "true" else "false"
    case Int(i) => IntText(i)
    case Str(s) => "'" + s + "'"
    case List(_) => "[]"
    case Map(_) => "{}"
  }


  lemma IntRoundTrip(i: int)
    ensures IsIntText(IntText(i)) && IntValue(IntText(i)) == i
    ensures forall c :: c in IntText(i) ==> c == '-' || '0' <= c <= '9'
  {
    var d := Decimal(if i < 0 then -i else i);
    DecimalRead(if i < 0 then -i else i);
    if i < 0 {
      assert ("-" + d)[1..] == d;
    } else {
      assert d[0] in d;
    }
  }

  lemma IntIsNoWord(t: string)
    requires IsIntText(t) && forall c :: c in t ==> c == '-' || '0' <= c <= '9'
    ensures t[0] != '\'' && t[0] != '"' && t[0] !in "nt~f[{"
    ensures t != "null" && t != "~" && t != "true" && t != "false" && t != "[]" && t != "{}"
    ensures Tight(t) && Neutral(t, '#')
  {
    assert t[0] in t && t[|t| - 1] in t;
  }

  lemma ScalarRoundTrip(v: Value, literal: Literal)
    requires Scalar(v)
    requires v.Str? ==> literal("'" + v.s + "'") == Some(v.s)
    ensures ParseScalar(ScalarText(v), literal) == Done(v)
  {
    if v.Int? {
      IntRoundTrip(v.i);
      IntIsNoWord(IntText(v.i));
    }
  }

  lemma UnbrokenJoin(a: string, b: string)
    ensures Unbroken(a + b) <==> Unbroken(a) && Unbroken(b)
  {
    assert forall c :: c in a + b <==> c in a || c in b;
  }

  lemma ScalarTextUnbroken(v: Value)
    requires Scalar(v)
    ensures Unbroken(ScalarText(v))
  {
    if v.Int? { IntRoundTrip(v.i); }
  }

  lemma ScalarTextShape(v: Value)
    requires Scalar(v)
    ensures Tight(ScalarText(v))
    ensures Find(ScalarText(v), '#', None, false) == Never(None)
  {
    var t := ScalarText(v);
    assert t + "" == t;
    match v {
      case Int(i) =>
        IntRoundTrip(i);
        IntIsNoWord(t);
        FindSkips(t, "", '#');
      case Str(s) =>
        assert "'" + s + "'" + "" == t;
        FindQuoted(s, "", '#');
      case _ =>
        FindSkips(t, "", '#');
    }
  }
}
