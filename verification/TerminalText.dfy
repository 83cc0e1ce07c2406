/** Text made safe for a terminal within a byte limit. */
module TerminalText {
  import opened Texts

  const MAX_NORMALIZED_ARG_BYTES := 4_096
  const MAX_NORMALIZED_ARGV_BYTES := 16_384

  /** Membership in the Unicode categories Cc, Cf, Cs, Zl and Zp. */
  type Category = char -> bool

  predicate IsControl(c: char, unsafe: Category) {
    if c < '\U{00a0}' then c < '\U{0020}' || '\U{007f}' <= c else unsafe(c)
  }

  function Digit(n: nat): char
    requires n < 16
  {
    "0123456789abcdef"[n]
  }

  function Hex(n: nat, width: nat): string {
    if width == 0 then "" else Hex(n / 16, width - 1) + [Digit(n % 16)]
  }

  function Escaped(c: char): string {
    if c <= '\U{00ff}' then "\\x" + Hex(c as nat, 2)
    else if c <= '\U{ffff}' then "\\u" + Hex(c as nat, 4)
    else "\\U" + Hex(c as nat, 8)
  }

  function Piece(c: char, keepNewlines: bool, unsafe: Category): string {
    if c == '\n' && keepNewlines then "\n" else if IsControl(c, unsafe) then Escaped(c) else [c]
  }

  function Pieces(s: string, keepNewlines: bool, unsafe: Category): string {
    if s == "" then "" else Pieces(s[..|s| - 1], keepNewlines, unsafe) + Piece(s[|s| - 1], keepNewlines, unsafe)
  }

  /** `text` is made of the pieces of the first `kept` characters, and one more would not fit. */
  predicate LongestFit(s: string, maximum: nat, keepNewlines: bool, unsafe: Category, text: string, kept: nat) {
    && kept <= |s| && text == Pieces(s[..kept], keepNewlines, unsafe) && Utf8Length(text) <= maximum
    && (kept < |s| ==> Utf8Length(text + Piece(s[kept], keepNewlines, unsafe)) > maximum)
  }

  datatype Normalized = Normalized(text: string, size: nat, truncated: bool)

  /** What normalising promises: the longest fit, its size, and whether anything was cut off. */
  ghost predicate Normalizes(s: string, maximum: nat, keepNewlines: bool, unsafe: Category, r: Normalized) {
    && r.size == Utf8Length(r.text)
    && exists kept: nat :: LongestFit(s, maximum, keepNewlines, unsafe, r.text, kept) && (r.truncated <==> kept < |s|)
  }

  method NormalizeTerminalText(s: string, maximum: nat, keepNewlines: bool, unsafe: Category) returns (r: Normalized)
    ensures Normalizes(s, maximum, keepNewlines, unsafe, r)
  {
    var buffer, size := "", 0;
    for k := 0 to |s|
      invariant buffer == Pieces(s[..k], keepNewlines, unsafe) && size == Utf8Length(buffer) <= maximum
    {
      var piece := Piece(s[k], keepNewlines, unsafe);
      LengthOfJoin(buffer, piece);
      assert s[..k + 1][..k] == s[..k];
      if size + Utf8Length(piece) > maximum {
        assert LongestFit(s, maximum, keepNewlines, unsafe, buffer, k);
        return Normalized(buffer, size, true);
      }
      buffer, size := buffer + piece, size + Utf8Length(piece);
    }
    assert LongestFit(s, maximum, keepNewlines, unsafe, buffer, |s|);
    return Normalized(buffer, size, false);
  }

  // ---- what is emitted is safe

  predicate Safe(text: string, keepNewlines: bool, unsafe: Category) {
    forall c :: c in text ==> (c == '\n' && keepNewlines) || !IsControl(c, unsafe)
  }

  lemma {:induction false} HexSafe(n: nat, width: nat)
    ensures forall c :: c in Hex(n, width) ==> c in "0123456789abcdef"
  {
    if width > 0 { HexSafe(n / 16, width - 1); }
  }

  lemma PieceSafe(c: char, keepNewlines: bool, unsafe: Category)
    ensures Safe(Piece(c, keepNewlines, unsafe), keepNewlines, unsafe)
  {
    HexSafe(c as nat, 2);
    HexSafe(c as nat, 4);
    HexSafe(c as nat, 8);
  }

  lemma {:induction false} PiecesSafe(s: string, keepNewlines: bool, unsafe: Category)
    ensures Safe(Pieces(s, keepNewlines, unsafe), keepNewlines, unsafe)
  {
    if s != "" {
      PiecesSafe(s[..|s| - 1], keepNewlines, unsafe);
      PieceSafe(s[|s| - 1], keepNewlines, unsafe);
    }
  }

  /** Nothing emitted is a control character, but for newlines that were to be kept. */
  lemma NormalizedSafe(s: string, maximum: nat, keepNewlines: bool, unsafe: Category, r: Normalized)
    requires Normalizes(s, maximum, keepNewlines, unsafe, r)
    ensures Safe(r.text, keepNewlines, unsafe) && r.size == Utf8Length(r.text) <= maximum
  {
    var kept: nat :| LongestFit(s, maximum, keepNewlines, unsafe, r.text, kept);
    PiecesSafe(s[..kept], keepNewlines, unsafe);
  }

  lemma {:induction false} SafeUnchanged(text: string, keepNewlines: bool, unsafe: Category)
    requires Safe(text, keepNewlines, unsafe)
    ensures Pieces(text, keepNewlines, unsafe) == text
  {
    if text != "" {
      SafeUnchanged(text[..|text| - 1], keepNewlines, unsafe);
      assert text[|text| - 1] in text;
    }
  }

  /** The pieces of a prefix are never longer. */
  lemma {:induction false} PrefixFits(s: string, k: nat, keepNewlines: bool, unsafe: Category)
    requires k <= |s|
    ensures Utf8Length(Pieces(s[..k], keepNewlines, unsafe)) <= Utf8Length(Pieces(s, keepNewlines, unsafe))
    decreases |s|
  {
    if k < |s| {
      assert s[..|s| - 1][..k] == s[..k];
      PrefixFits(s[..|s| - 1], k, keepNewlines, unsafe);
      LengthOfJoin(Pieces(s[..|s| - 1], keepNewlines, unsafe), Piece(s[|s| - 1], keepNewlines, unsafe));
    } else {
      assert s[..k] == s;
    }
  }

  lemma NextPiece(s: string, k: nat, keepNewlines: bool, unsafe: Category)
    requires k < |s|
    ensures Pieces(s[..k + 1], keepNewlines, unsafe)
              == Pieces(s[..k], keepNewlines, unsafe) + Piece(s[k], keepNewlines, unsafe)
  {
    hide Piece;
    assert s[..k + 1][..k] == s[..k];
  }

  /** The kept prefix really is the longest one: any longer prefix is over the limit. */
  lemma LongestOfAll(s: string, maximum: nat, keepNewlines: bool, unsafe: Category, text: string, kept: nat,
                     longer: nat)
    requires LongestFit(s, maximum, keepNewlines, unsafe, text, kept) && kept < longer <= |s|
    ensures Utf8Length(Pieces(s[..longer], keepNewlines, unsafe)) > maximum
  {
    hide Pieces, Piece, Utf8Length;
    NextPiece(s, kept, keepNewlines, unsafe);
    assert s[..longer][..kept + 1] == s[..kept + 1];
    PrefixFits(s[..longer], kept + 1, keepNewlines, unsafe);
  }

  /** There is one longest fit, so the promise determines the result. */
  lemma NormalizedUnique(s: string, maximum: nat, keepNewlines: bool, unsafe: Category, a: Normalized, b: Normalized)
    requires Normalizes(s, maximum, keepNewlines, unsafe, a) && Normalizes(s, maximum, keepNewlines, unsafe, b)
    ensures a == b
  {
    hide Pieces, Utf8Length, Piece;
    var i: nat :| LongestFit(s, maximum, keepNewlines, unsafe, a.text, i) && (a.truncated <==> i < |s|);
    var j: nat :| LongestFit(s, maximum, keepNewlines, unsafe, b.text, j) && (b.truncated <==> j < |s|);
    NotLonger(s, maximum, keepNewlines, unsafe, a.text, i, b.text, j);
    NotLonger(s, maximum, keepNewlines, unsafe, b.text, j, a.text, i);
  }

  lemma NotLonger(s: string, maximum: nat, keepNewlines: bool, unsafe: Category, a: string, i: nat, b: string, j: nat)
    requires LongestFit(s, maximum, keepNewlines, unsafe, a, i) && LongestFit(s, maximum, keepNewlines, unsafe, b, j)
    ensures i >= j
  {
    if i < j { LongestOfAll(s, maximum, keepNewlines, unsafe, a, i, j); }
  }

  /** Normalising the result again, under the same settings, changes nothing. */
  lemma FixedPoint(s: string, maximum: nat, keepNewlines: bool, unsafe: Category, r: Normalized, again: Normalized)
    requires Normalizes(s, maximum, keepNewlines, unsafe, r)
    requires Normalizes(r.text, maximum, keepNewlines, unsafe, again)
    ensures again == Normalized(r.text, r.size, false)
  {
    NormalizedSafe(s, maximum, keepNewlines, unsafe, r);
    SafeUnchanged(r.text, keepNewlines, unsafe);
    assert r.text[..|r.text|] == r.text;
    var whole := Normalized(r.text, r.size, false);
    assert LongestFit(r.text, maximum, keepNewlines, unsafe, r.text, |r.text|);
    NormalizedUnique(r.text, maximum, keepNewlines, unsafe, again, whole);
  }

  // ---- argument lists

  function TotalLength(texts: seq<string>): nat {
    if texts == [] then 0 else TotalLength(texts[..|texts| - 1]) + Utf8Length(texts[|texts| - 1])
  }

  function Least(a: nat, b: nat): nat {
    if a < b then a else b
  }

  /** Each argument gets what the earlier ones left over, and at most the limit of one argument. */
  ghost predicate ArgNormalizes(argv: seq<string>, unsafe: Category, texts: seq<string>, k: nat, cut: bool)
    requires k < |texts| <= |argv|
  {
    && TotalLength(texts[..k]) <= MAX_NORMALIZED_ARGV_BYTES
    && Normalizes(argv[k], Least(MAX_NORMALIZED_ARG_BYTES, MAX_NORMALIZED_ARGV_BYTES - TotalLength(texts[..k])),
                  false, unsafe,
                  Normalized(texts[k], Utf8Length(texts[k]), cut))
  }

  method NormalizeArgv(argv: seq<string>, unsafe: Category)
    returns (texts: seq<string>, truncated: bool, ghost cuts: seq<bool>)
    ensures |texts| == |cuts| == |argv| && TotalLength(texts) <= MAX_NORMALIZED_ARGV_BYTES
    ensures forall k :: 0 <= k < |argv| ==> ArgNormalizes(argv, unsafe, texts, k, cuts[k])
    ensures truncated <==> true in cuts
  {
    hide Normalizes;
    texts, truncated, cuts := [], false, [];
    var remaining: nat := MAX_NORMALIZED_ARGV_BYTES;
    for k := 0 to |argv|
      invariant |texts| == |cuts| == k && remaining == MAX_NORMALIZED_ARGV_BYTES - TotalLength(texts)
      invariant forall i :: 0 <= i < k ==> ArgNormalizes(argv, unsafe, texts, i, cuts[i])
      invariant truncated <==> true in cuts
    {
      var r := NormalizeTerminalText(argv[k], Least(MAX_NORMALIZED_ARG_BYTES, remaining), false, unsafe);
      NormalizedSafe(argv[k], Least(MAX_NORMALIZED_ARG_BYTES, remaining), false, unsafe, r);
      ghost var before := texts;
      texts, cuts := texts + [r.text], cuts + [r.truncated];
      assert texts[..k] == before;
      assert forall i :: 0 <= i < k ==> texts[..i] == before[..i];
      remaining := remaining - r.size;
      truncated := truncated || r.truncated;
    }
  }
}
