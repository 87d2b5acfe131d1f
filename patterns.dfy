/**
 * The regular expressions the parsers and checkers share, written out as
 * functions over the text they scan.  Each function documents the Python
 * pattern it stands for; the match semantics modelled are those of Python's
 * `re` (leftmost match, greedy or lazy quantifiers with backtracking,
 * `findall`/`finditer` resuming after each match).
 */
module Patterns {
  import opened Wrappers
  import opened TextUtil

  /** The bullet class `[•\-\*]`. */
  predicate IsBulletGlyph(c: char) {
    c == '•' || c == '-' || c == '*'
  }

  /** The last index in `[lo, hi)` holding a character other than a newline. */
  function LastNonNewline(s: string, lo: nat, hi: nat): (r: Option<nat>)
    requires lo <= hi <= |s|
    ensures r.Some? ==> lo <= r.value < hi && s[r.value] != '\n'
    ensures r.Some? ==> forall i :: r.value < i < hi ==> s[i] == '\n'
    ensures r.None? ==> forall i :: lo <= i < hi ==> s[i] == '\n'
    decreases hi - lo
  {
    if hi == lo then None
    else if s[hi - 1] != '\n' then Some(hi - 1)
    else LastNonNewline(s, lo, hi - 1)
  }

  /**
   * Where `\s*(.+)` places its group when it is tried at offset `j` of `s`,
   * as the half-open range `(start, end)`.  The lazy form
   * `\s*(.+?)(?=\n|$)` captures the same range.  The whitespace run is
   * taken greedily; only when it reaches the end of the text does the
   * engine give characters back, so that the group is then the last
   * character that is not a newline.
   */
  function CaptureRest(s: string, j: nat): (r: Option<(nat, nat)>)
    requires j <= |s|
    ensures r.Some? ==> j <= r.value.0 < r.value.1 <= |s|
    ensures r.Some? ==> forall i :: r.value.0 <= i < r.value.1 ==> s[i] != '\n'
    ensures r.Some? ==> r.value.1 == |s| || s[r.value.1] == '\n'
    ensures r.None? ==> forall i :: j <= i < |s| ==> s[i] == '\n'
  {
    var k := j + SpanSpace(s[j..]);
    assert forall i :: j <= i < k ==> IsSpace(s[i]) by {
      forall i | j <= i < k ensures IsSpace(s[i]) {
        assert s[j..][i - j] == s[i];
      }
    }
    if k < |s| then
      assert s[j..][k - j] == s[k];
      Some((k, IndexOfChar(s, '\n', k)))
    else
      match LastNonNewline(s, j, k)
      case Some(m) => Some((m, m + 1))
      case None => None
  }

  /** `re.match(r'[•\-\*]\s*(.+)', t)`, giving `group(1).strip()` on success. */
  function MatchBullet(t: string): (r: Option<string>)
    ensures r.Some? ==> |t| >= 2 && IsBulletGlyph(t[0])
    ensures |t| >= 2 && IsBulletGlyph(t[0]) && '\n' !in t ==> r.Some?
  {
    if |t| > 0 && IsBulletGlyph(t[0]) then
      match CaptureRest(t, 1)
      case Some((a, e)) => Some(Strip(t[a..e]))
      case None => None
    else None
  }

  /** A single line of text. */
  predicate NoNewline(t: string) {
    '\n' !in t
  }

  /** Length of the longest prefix of `s` made of digits. */
  function SpanDigits(s: string): (n: nat)
    ensures n <= |s|
    ensures forall i :: 0 <= i < n ==> IsDigit(s[i])
    ensures n < |s| ==> !IsDigit(s[n])
  {
    if s == [] || !IsDigit(s[0]) then 0 else 1 + SpanDigits(s[1..])
  }

  /** The two list-item openers the bullet extractor scans for. */
  datatype Opener =
    | Glyph     // `[•\-\*]`
    | Numbered  // `\d+\.`

  /** Where an opener matched at offset `i` ends, if one matches there. */
  function OpenerEnd(s: string, i: nat, o: Opener): (r: Option<nat>)
    requires i < |s|
    ensures r.Some? ==> i < r.value <= |s|
  {
    match o
    case Glyph => if IsBulletGlyph(s[i]) then Some(i + 1) else None
    case Numbered =>
      var d := i + SpanDigits(s[i..]);
      if d > i && d < |s| && s[d] == '.' then Some(d + 1) else None
  }

  /**
   * The list item whose opener starts at offset `i`, if any: its text
   * (`group(1).strip()`) and the offset where the match ends.
   */
  function ItemAt(s: string, o: Opener, i: nat): (r: Option<(string, nat)>)
    requires i < |s|
    ensures r.Some? ==> i < r.value.1 <= |s| && NoNewline(r.value.0)
  {
    match OpenerEnd(s, i, o)
    case None => None
    case Some(j) =>
      match CaptureRest(s, j)
      case None => None
      case Some((a, e)) =>
        StripHasNoNewline(s, a, e);
        Some((Strip(s[a..e]), e))
  }

  /**
   * `[m.group(1).strip() for m in re.finditer(opener + r'\s*(.+?)(?=\n|$)', s[i:])]`
   * scanning from offset `i`: the list items found left to right, each
   * scan resuming after the previous item.
   */
  function FindItemsFrom(s: string, o: Opener, i: nat): (r: seq<string>)
    requires i <= |s|
    ensures |r| <= |s| - i
    decreases |s| - i
  {
    if i == |s| then []
    else
      var m := ItemAt(s, o, i);
      if m.Some? then [m.value.0] + FindItemsFrom(s, o, m.value.1)
      else FindItemsFrom(s, o, i + 1)
  }

  /** The group range of an item whose opener starts at offset `i`, if one matches there. */
  function GroupAt(s: string, o: Opener, i: nat): (r: Option<(nat, nat)>)
    requires i < |s|
    ensures r.Some? ==> i < r.value.0 < r.value.1 <= |s|
  {
    match OpenerEnd(s, i, o)
    case None => None
    case Some(j) => CaptureRest(s, j)
  }

  /**
   * `re.findall(opener + r'\s*(.+?)(?=\n|$)', s[i:], re.MULTILINE)`: the
   * groups themselves, not stripped, found left to right.
   */
  function FindGroupsFrom(s: string, o: Opener, i: nat): (r: seq<string>)
    requires i <= |s|
    ensures |r| <= |s| - i
    decreases |s| - i
  {
    if i == |s| then []
    else
      match GroupAt(s, o, i)
      case Some((a, e)) => [s[a..e]] + FindGroupsFrom(s, o, e)
      case None => FindGroupsFrom(s, o, i + 1)
  }

  /** `[x.strip() for x in xs]`. */
  function StripAll(xs: seq<string>): (r: seq<string>)
    ensures |r| == |xs|
    ensures forall k :: 0 <= k < |xs| ==> r[k] == Strip(xs[k])
  {
    if xs == [] then [] else [Strip(xs[0])] + StripAll(xs[1..])
  }

  /** The stripped groups are the items: `findall` and `finditer` with `.strip()` see the same matches. */
  lemma {:induction false} GroupsStripToItems(s: string, o: Opener, i: nat)
    requires i <= |s|
    ensures StripAll(FindGroupsFrom(s, o, i)) == FindItemsFrom(s, o, i)
    decreases |s| - i
  {
    if i < |s| {
      match GroupAt(s, o, i)
      case Some((a, e)) =>
        GroupsStripToItems(s, o, e);
        assert ItemAt(s, o, i) == Some((Strip(s[a..e]), e));
        assert StripAll([s[a..e]] + FindGroupsFrom(s, o, e)) == [Strip(s[a..e])] + StripAll(FindGroupsFrom(s, o, e));
      case None =>
        GroupsStripToItems(s, o, i + 1);
        assert ItemAt(s, o, i).None?;
    }
  }

  lemma StripHasNoNewline(s: string, a: nat, e: nat)
    requires a <= e <= |s|
    requires forall i :: a <= i < e ==> s[i] != '\n'
    ensures '\n' !in Strip(s[a..e])
  {
    var t := s[a..e];
    var d := SpanSpace(t);
    var l := t[d..];
    var r := l[..|l| - TrailingSpace(l)];
    assert Strip(t) == r;
    forall i | 0 <= i < |r| ensures r[i] != '\n' {
      assert r[i] == s[a + d + i];
    }
  }

  /** Every list item found is a single line. */
  lemma {:induction false} ItemsAreSingleLines(s: string, o: Opener, i: nat)
    requires i <= |s|
    ensures forall k :: 0 <= k < |FindItemsFrom(s, o, i)| ==> NoNewline(FindItemsFrom(s, o, i)[k])
    decreases |s| - i
  {
    if i < |s| {
      var m := ItemAt(s, o, i);
      if m.Some? {
        ItemsAreSingleLines(s, o, m.value.1);
        var rest := FindItemsFrom(s, o, m.value.1);
        var r := [m.value.0] + rest;
        assert FindItemsFrom(s, o, i) == r;
        forall k | 0 <= k < |r| ensures NoNewline(r[k]) {
          if k > 0 { assert r[k] == rest[k - 1]; }
        }
      } else {
        ItemsAreSingleLines(s, o, i + 1);
      }
    }
  }

  /** There is no opener anywhere from offset `i` on. */
  predicate NoOpenerFrom(s: string, o: Opener, i: nat)
    requires i <= |s|
  {
    forall p :: i <= p < |s| ==> OpenerEnd(s, p, o).None?
  }

  /** A text with no opener yields no list items. */
  lemma {:induction false} NoOpenerNoItems(s: string, o: Opener, i: nat)
    requires i <= |s|
    requires NoOpenerFrom(s, o, i)
    ensures FindItemsFrom(s, o, i) == []
    decreases |s| - i
  {
    if i < |s| {
      assert ItemAt(s, o, i).None?;
      NoOpenerNoItems(s, o, i + 1);
    }
  }

  /**
   * The bullet extractor of the parser: every `[•\-\*]` item of the text,
   * then every numbered `\d+.` item.
   */
  function ExtractBullets(text: string): (r: seq<string>)
    ensures |r| <= 2 * |text|
  {
    FindItemsFrom(text, Glyph, 0) + FindItemsFrom(text, Numbered, 0)
  }

  /** `t` without one trailing colon, if it has one. */
  function DropColon(t: string): (r: string)
    ensures r <= t && |t| - 1 <= |r|
  {
    if |t| > 0 && t[|t| - 1] == ':' then t[..|t| - 1] else t
  }

  /** `re.match(r'^([A-Z][A-Z\s]+):?$', t)`, giving `group(1)`. */
  function AllCapsHeader(t: string): (r: Option<string>)
    ensures r.Some? ==> |r.value| >= 2 && IsUpper(r.value[0])
    ensures r.Some? ==> forall i :: 0 <= i < |r.value| ==> IsUpper(r.value[i]) || IsSpace(r.value[i])
    ensures r.Some? ==> t == r.value || t == r.value + ":"
  {
    var body := DropColon(t);
    if |body| >= 2 && IsUpper(body[0]) && forall i :: 1 <= i < |body| ==> IsUpper(body[i]) || IsSpace(body[i]) then
      Some(body)
    else None
  }

  /** `re.match(r'^([A-Z][a-z\s]+):$', t)`, giving `group(1)`. */
  function TitleCaseHeader(t: string): (r: Option<string>)
    ensures r.Some? ==> |r.value| >= 2 && IsUpper(r.value[0])
    ensures r.Some? ==> forall i :: 1 <= i < |r.value| ==> IsLower(r.value[i]) || IsSpace(r.value[i])
    ensures r.Some? ==> t == r.value + ":"
  {
    if |t| >= 3 && t[|t| - 1] == ':' then
      var body := t[..|t| - 1];
      if IsUpper(body[0]) && forall i :: 1 <= i < |body| ==> IsLower(body[i]) || IsSpace(body[i]) then
        assert t == body + ":";
        Some(body)
      else None
    else None
  }

  /** Length of the longest prefix of `s` without `*`. */
  function SpanNonStar(s: string): (n: nat)
    ensures n <= |s|
    ensures forall i :: 0 <= i < n ==> s[i] != '*'
    ensures n < |s| ==> s[n] == '*'
  {
    if s == [] || s[0] == '*' then 0 else 1 + SpanNonStar(s[1..])
  }

  /** `re.match(r'^\*\*([^*]+)\*\*', t)`, giving `group(1)`. */
  function MarkdownHeader(t: string): (r: Option<string>)
    ensures r.Some? ==> r.value != [] && '*' !in r.value
    ensures r.Some? ==> "**" + r.value + "**" <= t
  {
    if |t| >= 2 && t[0] == '*' && t[1] == '*' then
      var n := SpanNonStar(t[2..]);
      if n > 0 && 2 + n + 2 <= |t| && t[2 + n + 1] == '*' then
        var g := t[2..2 + n];
        assert t[2..][n] == t[2 + n];
        assert "**" + g + "**" == t[..2 + n + 2];
        Some(g)
      else None
    else None
  }

  /** The three header shapes both structure analysers try, in this order. */
  datatype HeaderPattern = AllCaps | TitleCase | MarkdownBold

  const HeaderPatterns: seq<HeaderPattern> := [AllCaps, TitleCase, MarkdownBold]

  /** The match of one header pattern against a stripped line, as `group(1).strip()`. */
  function MatchHeader(p: HeaderPattern, t: string): Option<string> {
    var g := match p
      case AllCaps => AllCapsHeader(t)
      case TitleCase => TitleCaseHeader(t)
      case MarkdownBold => MarkdownHeader(t);
    if g.Some? then Some(Strip(g.value)) else None
  }

  /** The first header pattern that matches the stripped line (the loop breaks on it). */
  function FirstHeader(t: string): (r: Option<string>)
    ensures r.Some? <==> exists p :: p in HeaderPatterns && MatchHeader(p, t).Some?
    ensures r.Some? ==> r in {MatchHeader(AllCaps, t), MatchHeader(TitleCase, t), MatchHeader(MarkdownBold, t)}
  {
    if MatchHeader(AllCaps, t).Some? then MatchHeader(AllCaps, t)
    else if MatchHeader(TitleCase, t).Some? then MatchHeader(TitleCase, t)
    else MatchHeader(MarkdownBold, t)
  }

  /** Length of the `[A-Z\s]` run at the start of `s`. */
  function SpanCapsOrSpace(s: string): (n: nat)
    ensures n <= |s|
    ensures forall i :: 0 <= i < n ==> IsUpper(s[i]) || IsSpace(s[i])
    ensures n < |s| ==> !(IsUpper(s[n]) || IsSpace(s[n]))
  {
    if s == [] || !(IsUpper(s[0]) || IsSpace(s[0])) then 0 else 1 + SpanCapsOrSpace(s[1..])
  }

  /**
   * `re.match(r'^[A-Z][A-Z\s]+:', t)`: a capital, then at least one
   * capital or space, then a colon right after that run (backtracking into
   * the run cannot help, since a colon is neither).
   */
  predicate CapsColonPrefix(t: string) {
    |t| >= 3 && IsUpper(t[0]) &&
    var n := SpanCapsOrSpace(t[1..]);
    n >= 1 && 1 + n < |t| && t[1 + n] == ':'
  }

  /** `re.match(r'^[A-Z]', t)`. */
  predicate StartsUpper(t: string) {
    |t| > 0 && IsUpper(t[0])
  }

  /** A maximal run of `\w` characters. */
  predicate IsWordRun(w: string) {
    w != [] && forall i :: 0 <= i < |w| ==> IsWordChar(w[i])
  }

  function SpanWord(s: string): (n: nat)
    ensures n <= |s|
    ensures forall i :: 0 <= i < n ==> IsWordChar(s[i])
    ensures n < |s| ==> !IsWordChar(s[n])
  {
    if s == [] || !IsWordChar(s[0]) then 0 else 1 + SpanWord(s[1..])
  }

  function SpanNonWord(s: string): (n: nat)
    ensures n <= |s|
    ensures forall i :: 0 <= i < n ==> !IsWordChar(s[i])
    ensures n < |s| ==> IsWordChar(s[n])
  {
    if s == [] || IsWordChar(s[0]) then 0 else 1 + SpanNonWord(s[1..])
  }

  /** The maximal `\w+` runs of `s`, left to right. */
  function WordRuns(s: string): (r: seq<string>)
    ensures forall k :: 0 <= k < |r| ==> IsWordRun(r[k])
    decreases |s|
  {
    var t := s[SpanNonWord(s)..];
    if t == [] then []
    else
      var n := SpanWord(t);
      [t[..n]] + WordRuns(t[n..])
  }

  /** A word run of the shape `[A-Z][a-z]+`. */
  predicate IsCapitalized(w: string) {
    |w| >= 2 && IsUpper(w[0]) && forall i :: 1 <= i < |w| ==> IsLower(w[i])
  }

  /** A word run of the shape `[a-z]{4,}`. */
  predicate IsLongLowerWord(w: string) {
    |w| >= 4 && forall i :: 0 <= i < |w| ==> IsLower(w[i])
  }

  /**
   * `re.findall(r'\b([A-Z][a-z]+)\b', s)`.  Both ends must be word
   * boundaries and the pattern only matches word characters, so a match is
   * exactly a whole word run of this shape.
   */
  function CapitalizedWords(s: string): (r: seq<string>)
    ensures forall k :: 0 <= k < |r| ==> IsCapitalized(r[k])
  {
    CapitalizedOf(WordRuns(s))
  }

  function CapitalizedOf(ws: seq<string>): (r: seq<string>)
    ensures forall k :: 0 <= k < |r| ==> IsCapitalized(r[k])
    ensures |r| <= |ws|
  {
    if ws == [] then []
    else (if IsCapitalized(ws[0]) then [ws[0]] else []) + CapitalizedOf(ws[1..])
  }

  /** `re.findall(r'\b[a-z]{4,}\b', s)`: the whole word runs of four or more lower-case letters. */
  function LongLowerWords(s: string): (r: seq<string>)
    ensures forall k :: 0 <= k < |r| ==> IsLongLowerWord(r[k])
  {
    LongLowerOf(WordRuns(s))
  }

  function LongLowerOf(ws: seq<string>): (r: seq<string>)
    ensures forall k :: 0 <= k < |r| ==> IsLongLowerWord(r[k])
    ensures |r| <= |ws|
  {
    if ws == [] then []
    else (if IsLongLowerWord(ws[0]) then [ws[0]] else []) + LongLowerOf(ws[1..])
  }
}
