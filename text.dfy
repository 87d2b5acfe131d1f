/** An optional value: Python's `None` or a present value. */
module Wrappers {
  datatype Option<+T> = None | Some(value: T)
}

/**
 * The Python `str` operations the analyzers rely on, over `seq<char>`.
 * Whitespace is exactly the set of `str.isspace()` (which is also what the
 * regex class `\s`, `str.split()` and `str.strip()` use); letters, case
 * mapping and the regex word class `\w` are modelled on ASCII.
 */
module TextUtil {
  import opened Wrappers

  predicate IsSpace(c: char) {
    var n := c as int;
    n == 0x20 || 0x09 <= n <= 0x0D || 0x1C <= n <= 0x1F || n == 0x85 || n == 0xA0 ||
    n == 0x1680 || 0x2000 <= n <= 0x200A || n == 0x2028 || n == 0x2029 || n == 0x202F ||
    n == 0x205F || n == 0x3000
  }

  predicate IsUpper(c: char) { 'A' <= c <= 'Z' }
  predicate IsLower(c: char) { 'a' <= c <= 'z' }
  predicate IsAlpha(c: char) { IsUpper(c) || IsLower(c) }
  predicate IsDigit(c: char) { '0' <= c <= '9' }

  /** The regex class `\w`. */
  predicate IsWordChar(c: char) { IsAlpha(c) || IsDigit(c) || c == '_' }

  predicate IsBlank(s: string) { forall i :: 0 <= i < |s| ==> IsSpace(s[i]) }

  /** A non-empty run without whitespace: what `str.split()` produces. */
  predicate IsToken(w: string) { w != [] && forall i :: 0 <= i < |w| ==> !IsSpace(w[i]) }

  function LowerChar(c: char): (r: char)
    ensures IsUpper(c) ==> IsLower(r) && r as int == c as int + 32
    ensures !IsUpper(c) ==> r == c
  {
    if IsUpper(c) then (c as int + 32) as char else c
  }

  function UpperChar(c: char): (r: char)
    ensures IsLower(c) ==> IsUpper(r) && r as int == c as int - 32
    ensures !IsLower(c) ==> r == c
  {
    if IsLower(c) then (c as int - 32) as char else c
  }

  /** `str.lower()`: keeps the length, so offsets in the result index the original. */
  function Lower(s: string): (r: string)
    ensures |r| == |s|
    ensures forall i :: 0 <= i < |s| ==> r[i] == LowerChar(s[i])
  {
    seq(|s|, i requires 0 <= i < |s| => LowerChar(s[i]))
  }

  /** `str.upper()`. */
  function Upper(s: string): (r: string)
    ensures |r| == |s|
    ensures forall i :: 0 <= i < |s| ==> r[i] == UpperChar(s[i])
  {
    seq(|s|, i requires 0 <= i < |s| => UpperChar(s[i]))
  }

  lemma LowerAppend(a: string, b: string)
    ensures Lower(a + b) == Lower(a) + Lower(b)
  {
  }

  /** Length of the longest prefix of `s` without whitespace. */
  function SpanNonSpace(s: string): (n: nat)
    ensures n <= |s|
    ensures forall i :: 0 <= i < n ==> !IsSpace(s[i])
    ensures n < |s| ==> IsSpace(s[n])
  {
    if s == [] || IsSpace(s[0]) then 0 else 1 + SpanNonSpace(s[1..])
  }

  /** Length of the longest whitespace prefix of `s`. */
  function SpanSpace(s: string): (n: nat)
    ensures n <= |s|
    ensures forall i :: 0 <= i < n ==> IsSpace(s[i])
    ensures n < |s| ==> !IsSpace(s[n])
  {
    if s == [] || !IsSpace(s[0]) then 0 else 1 + SpanSpace(s[1..])
  }

  /** Length of the longest whitespace suffix of `s`. */
  function TrailingSpace(s: string): (n: nat)
    ensures n <= |s|
    ensures forall i :: |s| - n <= i < |s| ==> IsSpace(s[i])
    ensures n < |s| ==> !IsSpace(s[|s| - n - 1])
  {
    if s == [] || !IsSpace(s[|s| - 1]) then 0 else 1 + TrailingSpace(s[..|s| - 1])
  }

  /** `str.lstrip()`: drops the leading whitespace. */
  function LStrip(s: string): string {
    s[SpanSpace(s)..]
  }

  /** `str.rstrip()`: drops the trailing whitespace. */
  function RStrip(s: string): string {
    s[..|s| - TrailingSpace(s)]
  }

  /** `str.strip()`. */
  function Strip(s: string): (r: string)
    ensures |r| <= |s|
    ensures r != [] ==> !IsSpace(r[0]) && !IsSpace(r[|r| - 1])
  {
    var l := LStrip(s);
    assert l != [] ==> l[0] == s[SpanSpace(s)];
    RStrip(l)
  }

  /** Stripping only removes characters: what is left is a slice of the original. */
  lemma StripKeepsChars(s: string)
    ensures forall c :: c in Strip(s) ==> c in s
  {
    var l := LStrip(s);
    assert forall c :: c in l ==> c in s;
    assert forall c :: c in RStrip(l) ==> c in l;
  }

  lemma StripEmptyIffBlank(s: string)
    ensures Strip(s) == [] <==> IsBlank(s)
  {
    var a := SpanSpace(s);
    var l := s[a..];
    if Strip(s) == [] {
      assert TrailingSpace(l) == |l|;
      assert a == |s|;
    }
  }

  lemma StripOfToken(w: string)
    requires IsToken(w)
    ensures Strip(w) == w
  {
    assert SpanSpace(w) == 0;
    assert w[0..] == w;
    assert TrailingSpace(w) == 0;
  }

  /** `str.split()` without arguments: the maximal runs of non-whitespace, in order. */
  function SplitWs(s: string): (r: seq<string>)
    ensures forall k :: 0 <= k < |r| ==> IsToken(r[k])
    ensures IsBlank(s) ==> r == []
    decreases |s|
  {
    var t := LStrip(s);
    if t == [] then []
    else
      var n := SpanNonSpace(t);
      [t[..n]] + SplitWs(t[n..])
  }

  /** The number of words Python counts with `len(s.split())`. */
  function WordCount(s: string): nat {
    |SplitWs(s)|
  }

  /**
   * Words are non-empty and separated by whitespace, so a text has at most
   * half as many words as characters, rounded up.
   */
  lemma {:induction false} WordCountBound(s: string)
    ensures 2 * WordCount(s) <= |LStrip(s)| + 1
    decreases |s|
  {
    var t := LStrip(s);
    if t != [] {
      var n := SpanNonSpace(t);
      var rest := t[n..];
      WordCountBound(rest);
      if rest != [] {
        assert IsSpace(rest[0]);
        assert SpanSpace(rest) >= 1;
      }
    }
  }

  /** `sep.join(ss)`. */
  function Join(ss: seq<string>, sep: string): string {
    if |ss| == 0 then "" else if |ss| == 1 then ss[0] else ss[0] + sep + Join(ss[1..], sep)
  }

  lemma JoinTwo(a: string, b: string, sep: string)
    ensures Join([a, b], sep) == a + sep + b
  {
    assert [a, b][1..] == [b];
  }

  lemma JoinFour(a: string, b: string, c: string, d: string, sep: string)
    ensures Join([a, b, c, d], sep) == a + sep + b + sep + c + sep + d
  {
    JoinTwo(c, d, sep);
    assert Join([b, c, d], sep) == b + sep + Join([c, d], sep) by { assert [b, c, d][1..] == [c, d]; }
    assert Join([a, b, c, d], sep) == a + sep + Join([b, c, d], sep) by { assert [a, b, c, d][1..] == [b, c, d]; }
  }

  lemma {:induction false} SpanSpaceSkipsBlank(a: string, b: string)
    requires IsBlank(a)
    ensures SpanSpace(a + b) == |a| + SpanSpace(b)
    decreases |a|
  {
    if a != [] {
      assert IsSpace((a + b)[0]);
      assert (a + b)[1..] == a[1..] + b;
      SpanSpaceSkipsBlank(a[1..], b);
    } else {
      assert a + b == b;
    }
  }

  lemma LStripSkipsBlank(a: string, b: string)
    requires IsBlank(a)
    ensures LStrip(a + b) == LStrip(b)
  {
    SpanSpaceSkipsBlank(a, b);
    assert (a + b)[|a| + SpanSpace(b)..] == b[SpanSpace(b)..];
  }

  lemma SplitWsSkipsLeadingSpace(a: string, b: string)
    requires IsBlank(a)
    ensures SplitWs(a + b) == SplitWs(b)
  {
    LStripSkipsBlank(a, b);
    var t := LStrip(b);
    if t != [] {
      var n := SpanNonSpace(t);
      assert SplitWs(a + b) == [t[..n]] + SplitWs(t[n..]);
      assert SplitWs(b) == [t[..n]] + SplitWs(t[n..]);
    } else {
      assert SplitWs(a + b) == [];
      assert SplitWs(b) == [];
    }
  }

  lemma SpanNonSpaceOfWord(w: string, tail: string)
    requires IsToken(w)
    requires tail == [] || IsSpace(tail[0])
    ensures SpanNonSpace(w + tail) == |w|
  {
    var s := w + tail;
    assert forall i :: 0 <= i < |w| ==> s[i] == w[i];
    assert tail != [] ==> s[|w|] == tail[0];
  }

  /** A word followed by whitespace (or nothing) is the first piece of the split. */
  lemma SplitWsWordThen(w: string, tail: string)
    requires IsToken(w)
    requires tail == [] || IsSpace(tail[0])
    ensures SplitWs(w + tail) == [w] + SplitWs(tail)
  {
    var s := w + tail;
    assert SpanSpace(s) == 0;
    assert LStrip(s) == s;
    SpanNonSpaceOfWord(w, tail);
    assert s[..|w|] == w;
    assert s[|w|..] == tail;
  }

  /** Splitting a space-joined list of words gives the words back. */
  lemma {:induction false} SplitJoinRoundTrip(ws: seq<string>)
    requires forall k :: 0 <= k < |ws| ==> IsToken(ws[k])
    ensures SplitWs(Join(ws, " ")) == ws
  {
    if |ws| == 1 {
      SplitOneWord(ws);
    } else if |ws| > 1 {
      SplitJoinRoundTrip(ws[1..]);
      SplitJoinStep(ws);
    }
  }

  lemma SplitOneWord(ws: seq<string>)
    requires |ws| == 1 && IsToken(ws[0])
    ensures SplitWs(Join(ws, " ")) == ws
  {
    var w := ws[0];
    assert Join(ws, " ") == w;
    SplitWsWordThen(w, "");
    assert w + "" == w;
    assert SplitWs("") == [];
  }

  lemma SplitJoinStep(ws: seq<string>)
    requires |ws| > 1 && IsToken(ws[0])
    requires SplitWs(Join(ws[1..], " ")) == ws[1..]
    ensures SplitWs(Join(ws, " ")) == ws
  {
    JoinCons(ws, " ");
    SplitWordSpaceRest(ws[0], Join(ws[1..], " "));
    assert [ws[0]] + ws[1..] == ws;
  }

  lemma SplitWordSpaceRest(w: string, rest: string)
    requires IsToken(w)
    ensures SplitWs(w + (" " + rest)) == [w] + SplitWs(rest)
  {
    SplitWsWordThen(w, " " + rest);
    SplitWsSkipsLeadingSpace(" ", rest);
  }

  lemma JoinCons(ws: seq<string>, sep: string)
    requires |ws| > 1
    ensures Join(ws, sep) == ws[0] + (sep + Join(ws[1..], sep))
  {
  }

  /** Appending text without whitespace to a joined list extends its last word. */
  lemma {:induction false} JoinAppendToLast(ws: seq<string>, x: string)
    requires |ws| >= 1
    ensures Join(ws, " ") + x == Join(ws[..|ws| - 1] + [ws[|ws| - 1] + x], " ")
  {
    if |ws| == 1 {
      assert ws[..0] + [ws[0] + x] == [ws[0] + x];
    } else {
      var ws' := ws[..|ws| - 1] + [ws[|ws| - 1] + x];
      JoinAppendToLast(ws[1..], x);
      assert ws'[0] == ws[0];
      assert ws'[1..] == ws[1..][..|ws[1..]| - 1] + [ws[1..][|ws[1..]| - 1] + x];
    }
  }

  /** The least index `i >= from` with `s[i] == c`, or `|s|` when there is none. */
  function IndexOfChar(s: string, c: char, from: nat): (i: nat)
    requires from <= |s|
    ensures from <= i <= |s|
    ensures forall j :: from <= j < i ==> s[j] != c
    ensures i < |s| ==> s[i] == c
    decreases |s| - from
  {
    if from == |s| || s[from] == c then from else IndexOfChar(s, c, from + 1)
  }

  /** `s.split(c)` for a one-character separator: always at least one piece. */
  function SplitOn(s: string, c: char): (r: seq<string>)
    ensures |r| >= 1
    ensures forall k :: 0 <= k < |r| ==> c !in r[k]
    decreases |s|
  {
    var i := IndexOfChar(s, c, 0);
    if i == |s| then [s] else [s[..i]] + SplitOn(s[i + 1..], c)
  }

  /** Joining the pieces of `s.split(c)` with `c` gives `s` back. */
  lemma {:induction false} SplitOnJoinRoundTrip(s: string, c: char)
    ensures Join(SplitOn(s, c), [c]) == s
    decreases |s|
  {
    var i := IndexOfChar(s, c, 0);
    if i < |s| {
      var rest := SplitOn(s[i + 1..], c);
      SplitOnJoinRoundTrip(s[i + 1..], c);
      assert SplitOn(s, c) == [s[..i]] + rest;
      assert s == s[..i] + [c] + s[i + 1..];
    }
  }

  /** `sub` occurs in `s` at offset `j`. */
  predicate OccursAt(s: string, sub: string, j: int) {
    0 <= j <= |s| && sub <= s[j..]
  }

  /** `sub in s`. */
  predicate Contains(s: string, sub: string) {
    exists j | 0 <= j <= |s| :: OccursAt(s, sub, j)
  }

  /** The least offset at or after `from` where `sub` occurs. */
  function FindFrom(s: string, sub: string, from: nat): (r: Option<nat>)
    requires from <= |s|
    ensures r.Some? ==> from <= r.value && OccursAt(s, sub, r.value)
    ensures r.Some? ==> forall j :: from <= j < r.value ==> !OccursAt(s, sub, j)
    ensures r.None? ==> forall j :: from <= j ==> !OccursAt(s, sub, j)
    decreases |s| - from
  {
    if sub <= s[from..] then Some(from)
    else if from == |s| then None
    else FindFrom(s, sub, from + 1)
  }

  /** `s.find(sub)` (None for -1), which is also `s.index(sub)` when `sub in s`. */
  function Find(s: string, sub: string): (r: Option<nat>)
    ensures r.Some? <==> Contains(s, sub)
    ensures r.Some? ==> OccursAt(s, sub, r.value) && forall j :: 0 <= j < r.value ==> !OccursAt(s, sub, j)
  {
    FindFrom(s, sub, 0)
  }

  /** True when some element of `subs` occurs in `s` (`any(m in s for m in subs)`). */
  predicate ContainsAny(s: string, subs: seq<string>) {
    exists k :: 0 <= k < |subs| && Contains(s, subs[k])
  }

  lemma ContainsIn(s: string, sub: string, j: int)
    requires OccursAt(s, sub, j)
    ensures Contains(s, sub)
  {
  }

  /** A string contains each piece it is built from. */
  lemma ContainsMiddle(pre: string, x: string, post: string)
    ensures Contains(pre + x + post, x)
  {
    assert (pre + x + post)[|pre|..] == x + post;
    assert OccursAt(pre + x + post, x, |pre|);
  }

  lemma ContainsLeft(a: string, b: string, x: string)
    requires Contains(a, x)
    ensures Contains(a + b, x)
  {
    var j :| 0 <= j <= |a| && OccursAt(a, x, j);
    assert (a + b)[j..] == a[j..] + b;
    assert OccursAt(a + b, x, j);
  }

  lemma ContainsRight(a: string, b: string, x: string)
    requires Contains(b, x)
    ensures Contains(a + b, x)
  {
    var j :| 0 <= j <= |b| && OccursAt(b, x, j);
    assert (a + b)[|a| + j..] == b[j..];
    assert OccursAt(a + b, x, |a| + j);
  }

  /** `pre + x` contains `x`. */
  lemma ContainsEnd(pre: string, x: string)
    ensures Contains(pre + x, x)
  {
    assert (pre + x)[|pre|..] == x;
    assert OccursAt(pre + x, x, |pre|);
  }

  /** Letter `m` of `sub` occurs nowhere in `s`. */
  predicate LacksLetterOf(s: string, sub: string, m: int) {
    0 <= m < |sub| && sub[m] !in s
  }

  /** A text shorter than each of `subs`, or lacking a letter of each, contains none of them. */
  lemma NoneContained(s: string, subs: seq<string>)
    requires forall k :: 0 <= k < |subs| ==> |s| < |subs[k]| || exists m :: LacksLetterOf(s, subs[k], m)
    ensures !ContainsAny(s, subs)
  {
    forall k | 0 <= k < |subs| ensures !Contains(s, subs[k]) {
      if |s| >= |subs[k]| {
        var m :| LacksLetterOf(s, subs[k], m);
      }
    }
  }

  /** Lower-casing keeps an occurrence of an already lower-case text. */
  lemma LowerKeepsLowerOccurrence(s: string, sub: string)
    requires Lower(sub) == sub
    requires Contains(s, sub)
    ensures Contains(Lower(s), sub)
  {
    var j :| 0 <= j <= |s| && OccursAt(s, sub, j);
    assert sub <= s[j..];
    assert Lower(s)[j..][..|sub|] == Lower(s[j..][..|sub|]);
    assert OccursAt(Lower(s), sub, j);
  }

  /** The character at `p` exists and belongs to `\w`. */
  predicate IsWordAt(t: string, p: int) {
    0 <= p < |t| && IsWordChar(t[p])
  }

  /** The regex assertion `\b` holds at position `p` of `t`. */
  predicate Boundary(t: string, p: int) {
    IsWordAt(t, p - 1) != IsWordAt(t, p)
  }

  predicate WholeWordAt(t: string, kw: string, i: int) {
    OccursAt(t, kw, i) && Boundary(t, i) && Boundary(t, i + |kw|)
  }

  /**
   * `re.search(r'\b' + re.escape(kw) + r'\b', t)` succeeds: `kw` occurs
   * literally in `t` with a word boundary on each side.
   */
  predicate WholeWord(t: string, kw: string) {
    exists i | 0 <= i <= |t| :: WholeWordAt(t, kw, i)
  }

  lemma WholeWordIsContained(t: string, kw: string)
    requires WholeWord(t, kw)
    ensures Contains(t, kw)
  {
  }

  /** `s.replace(pat, rep)`: every non-overlapping occurrence, left to right. */
  function ReplaceAll(s: string, pat: string, rep: string): string
    requires pat != []
    decreases |s|
  {
    if |s| < |pat| then s
    else if pat <= s then rep + ReplaceAll(s[|pat|..], pat, rep)
    else [s[0]] + ReplaceAll(s[1..], pat, rep)
  }

  /** A text in which the pattern does not occur is left as it is. */
  lemma {:induction false} ReplaceAllAbsent(s: string, pat: string, rep: string)
    requires pat != []
    requires !Contains(s, pat)
    ensures ReplaceAll(s, pat, rep) == s
    decreases |s|
  {
    if |s| >= |pat| {
      assert !OccursAt(s, pat, 0);
      if !Contains(s[1..], pat) {
        ReplaceAllAbsent(s[1..], pat, rep);
        assert [s[0]] + s[1..] == s;
      } else {
        var j :| 0 <= j <= |s[1..]| && OccursAt(s[1..], pat, j);
        assert s[1..][j..] == s[j + 1..];
        assert OccursAt(s, pat, j + 1);
      }
    }
  }

  function DigitChar(d: nat): (c: char)
    requires d < 10
    ensures IsDigit(c)
  {
    ('0' as int + d) as char
  }

  /** `str(n)` for a natural number. */
  function NatToString(n: nat): (r: string)
    ensures r != [] && forall i :: 0 <= i < |r| ==> IsDigit(r[i])
  {
    if n < 10 then [DigitChar(n)] else NatToString(n / 10) + [DigitChar(n % 10)]
  }

  /** `str(n)` for an integer. */
  function IntToString(n: int): string {
    if n < 0 then "-" + NatToString(-n) else NatToString(n)
  }

  /** The set of elements of a sequence (`set(s)`). */
  function Elems<T(==)>(s: seq<T>): set<T> {
    set x | x in s
  }

  lemma ElemsSnoc<T>(xs: seq<T>)
    requires xs != []
    ensures Elems(xs) == Elems(xs[..|xs| - 1]) + {xs[|xs| - 1]}
  {
    assert xs == xs[..|xs| - 1] + [xs[|xs| - 1]];
    assert forall x :: x in xs <==> x in xs[..|xs| - 1] || x == xs[|xs| - 1];
  }

  lemma ElemsAppend<T>(a: seq<T>, b: seq<T>)
    ensures Elems(a + b) == Elems(a) + Elems(b)
  {
    assert forall x :: x in a + b <==> x in a || x in b;
  }

  /** The elements of `s` are pairwise distinct. */
  predicate Distinct<T(==)>(s: seq<T>) {
    forall i, j :: 0 <= i < j < |s| ==> s[i] != s[j]
  }

  /** `s` lists every element of `set` exactly once, in some order. */
  predicate Enumerates<T(==)>(s: seq<T>, elems: set<T>) {
    Distinct(s) && Elems(s) == elems
  }

  lemma EnumerationSize<T>(s: seq<T>, elems: set<T>)
    requires Enumerates(s, elems)
    ensures |s| == |elems|
  {
    if s != [] {
      var t := s[1..];
      assert Enumerates(t, elems - {s[0]}) by {
        forall x | x in elems - {s[0]} ensures x in t {
          var i :| 0 <= i < |s| && s[i] == x;
          assert i != 0;
          assert t[i - 1] == x;
        }
      }
      EnumerationSize(t, elems - {s[0]});
    }
  }

  /** Python's iteration over a set: some order, chosen by the runtime, not by the program. */
  method SetToSeq<T(==)>(elems: set<T>) returns (r: seq<T>)
    ensures Enumerates(r, elems)
  {
    r := [];
    var rest := elems;
    while rest != {}
      invariant rest !! Elems(r)
      invariant Elems(r) + rest == elems
      invariant Distinct(r)
      decreases rest
    {
      var x :| x in rest;
      r := r + [x];
      rest := rest - {x};
    }
  }

  /** String order of Python (`<` on `str`): lexicographic on code points. */
  predicate LexLess(a: string, b: string)
    decreases |a|
  {
    if a == [] then b != []
    else if b == [] then false
    else a[0] < b[0] || (a[0] == b[0] && LexLess(a[1..], b[1..]))
  }

  lemma LexLessIrreflexive(a: string)
    ensures !LexLess(a, a)
  {
  }

  lemma {:induction false} LexLessTransitive(a: string, b: string, c: string)
    requires LexLess(a, b) && LexLess(b, c)
    ensures LexLess(a, c)
    decreases |a|
  {
    if a != [] && b != [] && c != [] && a[0] == b[0] == c[0] {
      LexLessTransitive(a[1..], b[1..], c[1..]);
    }
  }

  lemma {:induction false} LexLessTotal(a: string, b: string)
    requires a != b
    ensures LexLess(a, b) || LexLess(b, a)
    decreases |a|
  {
    if a != [] && b != [] && a[0] == b[0] {
      assert a == [a[0]] + a[1..] && b == [b[0]] + b[1..];
      LexLessTotal(a[1..], b[1..]);
    }
  }

  /** Strictly increasing in string order, hence also duplicate-free. */
  predicate StrictlySorted(s: seq<string>) {
    forall i, j :: 0 <= i < j < |s| ==> LexLess(s[i], s[j])
  }

  /** Inserts `x` into a strictly sorted list unless it is already there. */
  function InsertSorted(x: string, s: seq<string>): (r: seq<string>)
    requires StrictlySorted(s)
    ensures StrictlySorted(r)
    ensures Elems(r) == Elems(s) + {x}
  {
    if s == [] then [x]
    else if x == s[0] then s
    else if LexLess(x, s[0]) then
      assert forall j :: 0 <= j < |s| ==> LexLess(x, s[j]) by {
        forall j | 0 <= j < |s| ensures LexLess(x, s[j]) {
          if j > 0 { LexLessTransitive(x, s[0], s[j]); }
        }
      }
      [x] + s
    else
      LexLessTotal(x, s[0]);
      var t := InsertSorted(x, s[1..]);
      assert forall y :: y in t ==> LexLess(s[0], y) by {
        forall y | y in t ensures LexLess(s[0], y) {
          assert y in Elems(t);
          assert y in s[1..] || y == x;
        }
      }
      ElemsAppend([s[0]], t);
      ElemsAppend([s[0]], s[1..]);
      assert s == [s[0]] + s[1..];
      [s[0]] + t
  }

  /** `sorted(set(xs))`. */
  function SortedUnique(xs: seq<string>): (r: seq<string>)
    ensures StrictlySorted(r)
    ensures Elems(r) == Elems(xs)
  {
    if xs == [] then []
    else
      ElemsSnoc(xs);
      InsertSorted(xs[|xs| - 1], SortedUnique(xs[..|xs| - 1]))
  }

  lemma StrictlySortedIsDistinct(s: seq<string>)
    requires StrictlySorted(s)
    ensures Distinct(s)
  {
    forall i, j | 0 <= i < j < |s| ensures s[i] != s[j] {
      if s[i] == s[j] { LexLessIrreflexive(s[i]); }
    }
  }

  lemma HeadInElems<T>(s: seq<T>)
    requires s != []
    ensures s[0] in Elems(s)
  {
  }

  /** Two strictly sorted lists with the same elements are the same list. */
  lemma {:induction false} StrictlySortedUnique(a: seq<string>, b: seq<string>)
    requires StrictlySorted(a) && StrictlySorted(b)
    requires Elems(a) == Elems(b)
    ensures a == b
    decreases |a|
  {
    if a == [] {
      if b != [] {
        HeadInElems(b);
      }
    } else {
      assert a[0] in Elems(b);
      assert b != [];
      assert b[0] in Elems(a);
      var i :| 0 <= i < |a| && a[i] == b[0];
      var j :| 0 <= j < |b| && b[j] == a[0];
      if i > 0 && j > 0 {
        LexLessTransitive(a[0], a[i], a[0]);
        LexLessIrreflexive(a[0]);
      }
      assert a[0] == b[0] by {
        if i == 0 { } else if j == 0 { } else { assert false; }
      }
      forall x | x in Elems(a[1..]) ensures x in Elems(b[1..]) {
        var k :| 1 <= k < |a| && a[k] == x;
        assert x in Elems(a);
        var m :| 0 <= m < |b| && b[m] == x;
        if m == 0 { LexLessIrreflexive(a[0]); }
        assert b[1..][m - 1] == x;
      }
      forall x | x in Elems(b[1..]) ensures x in Elems(a[1..]) {
        var k :| 1 <= k < |b| && b[k] == x;
        assert x in Elems(b);
        var m :| 0 <= m < |a| && a[m] == x;
        if m == 0 { LexLessIrreflexive(b[0]); }
        assert a[1..][m - 1] == x;
      }
      StrictlySortedUnique(a[1..], b[1..]);
      assert a == [a[0]] + a[1..] && b == [b[0]] + b[1..];
    }
  }

  /** A list has at least as many entries as distinct elements. */
  lemma {:induction false} ElemsSize<T>(s: seq<T>)
    ensures |Elems(s)| <= |s|
  {
    if s != [] {
      var t := s[..|s| - 1];
      ElemsSize(t);
      assert s == t + [s[|s| - 1]];
      ElemsAppend(t, [s[|s| - 1]]);
      assert Elems([s[|s| - 1]]) == {s[|s| - 1]};
    }
  }

  /** The least index at or after `from` whose entry satisfies `p` (a first-match loop). */
  function FirstWhere<T>(xs: seq<T>, p: T -> bool, from: nat): (r: Option<nat>)
    requires from <= |xs|
    ensures r.Some? ==> from <= r.value < |xs| && p(xs[r.value])
    ensures r.Some? ==> forall k :: from <= k < r.value ==> !p(xs[k])
    ensures r.None? ==> forall k :: from <= k < |xs| ==> !p(xs[k])
    decreases |xs| - from
  {
    if from == |xs| then None
    else if p(xs[from]) then Some(from)
    else FirstWhere(xs, p, from + 1)
  }

  /** The index found is the one whose entry passes and has none passing before it. */
  lemma FirstWhereIsFirst<T>(xs: seq<T>, p: T -> bool)
    ensures forall i :: 0 <= i < |xs| && p(xs[i]) && (forall j :: 0 <= j < i ==> !p(xs[j])) ==>
      FirstWhere(xs, p, 0) == Some(i)
  {
    var r := FirstWhere(xs, p, 0);
    forall i | 0 <= i < |xs| && p(xs[i]) && (forall j :: 0 <= j < i ==> !p(xs[j]))
      ensures r == Some(i)
    {
      assert r.Some?;
      assert !(r.value < i);
    }
  }

  /** One more entry of `xs` after a fixed prefix. */
  lemma AppendPrefixStep<T>(before: seq<T>, xs: seq<T>, k: nat)
    requires k < |xs|
    ensures before + xs[..k + 1] == before + xs[..k] + [xs[k]]
  {
    assert xs[..k + 1] == xs[..k] + [xs[k]];
  }

  /** The first `n` entries of a list (`xs[:n]`). */
  function Take<T>(xs: seq<T>, n: nat): (r: seq<T>)
    ensures |r| <= n && |r| <= |xs|
    ensures r <= xs
    ensures |xs| <= n ==> r == xs
    ensures |xs| > n ==> |r| == n
  {
    if |xs| <= n then xs else xs[..n]
  }

  /** `a` lists some of the entries of `b`, in the order `b` has them. */
  predicate IsSubsequence<T(==)>(a: seq<T>, b: seq<T>)
    decreases |b|
  {
    a == [] ||
    (b != [] &&
     ((a[|a| - 1] == b[|b| - 1] && IsSubsequence(a[..|a| - 1], b[..|b| - 1])) ||
      IsSubsequence(a, b[..|b| - 1])))
  }

  /** The entries of `xs` that satisfy `p`, in order. */
  function Filter<T>(xs: seq<T>, p: T -> bool): (r: seq<T>)
    ensures |r| <= |xs|
  {
    if xs == [] then []
    else
      var rest := Filter(xs[..|xs| - 1], p);
      if p(xs[|xs| - 1]) then rest + [xs[|xs| - 1]] else rest
  }

  /** The entries of `xs` that fail `p`, in order. */
  function Reject<T>(xs: seq<T>, p: T -> bool): (r: seq<T>)
    ensures |r| <= |xs|
  {
    if xs == [] then []
    else
      var rest := Reject(xs[..|xs| - 1], p);
      if p(xs[|xs| - 1]) then rest else rest + [xs[|xs| - 1]]
  }

  /** An entry is kept by `Filter` exactly when it satisfies `p`, and by `Reject` exactly when it does not. */
  lemma {:induction false} FilterMembers<T>(xs: seq<T>, p: T -> bool)
    ensures forall x :: x in Filter(xs, p) <==> x in xs && p(x)
    ensures forall x :: x in Reject(xs, p) <==> x in xs && !p(x)
  {
    if xs != [] {
      var init := xs[..|xs| - 1];
      FilterMembers(init, p);
      assert xs == init + [xs[|xs| - 1]];
    }
  }

  /** `Filter` and `Reject` split a list in two, duplicates included. */
  lemma {:induction false} FilterRejectSplit<T>(xs: seq<T>, p: T -> bool)
    ensures multiset(Filter(xs, p)) + multiset(Reject(xs, p)) == multiset(xs)
    ensures |Filter(xs, p)| + |Reject(xs, p)| == |xs|
  {
    if xs != [] {
      var init := xs[..|xs| - 1];
      var x := xs[|xs| - 1];
      FilterRejectSplit(init, p);
      assert xs == init + [x];
      assert multiset(xs) == multiset(init) + multiset{x};
      if p(x) {
        assert Filter(xs, p) == Filter(init, p) + [x];
        assert Reject(xs, p) == Reject(init, p);
      } else {
        assert Filter(xs, p) == Filter(init, p);
        assert Reject(xs, p) == Reject(init, p) + [x];
      }
    }
  }

  /** Filtering a duplicate-free list leaves both sides duplicate-free. */
  lemma {:induction false} FilterDistinct<T>(xs: seq<T>, p: T -> bool)
    requires Distinct(xs)
    ensures Distinct(Filter(xs, p)) && Distinct(Reject(xs, p))
  {
    if xs != [] {
      var init := xs[..|xs| - 1];
      var x := xs[|xs| - 1];
      assert Distinct(init);
      FilterDistinct(init, p);
      FilterMembers(init, p);
      assert x !in init;
    }
  }

  /** Both sides keep the list's order. */
  lemma {:induction false} FilterRejectInOrder<T>(xs: seq<T>, p: T -> bool)
    ensures IsSubsequence(Filter(xs, p), xs) && IsSubsequence(Reject(xs, p), xs)
  {
    if xs != [] {
      var init := xs[..|xs| - 1];
      var x := xs[|xs| - 1];
      FilterRejectInOrder(init, p);
      var f := Filter(init, p);
      var r := Reject(init, p);
      if p(x) {
        assert (f + [x])[..|f|] == f;
        SubsequenceDrop(r, xs);
      } else {
        assert (r + [x])[..|r|] == r;
        SubsequenceDrop(f, xs);
      }
    }
  }

  /** A subsequence of a list without its last entry is a subsequence of the list. */
  lemma SubsequenceDrop<T>(a: seq<T>, b: seq<T>)
    requires b != [] && IsSubsequence(a, b[..|b| - 1])
    ensures IsSubsequence(a, b)
  {
  }

  /** `matched / total * 100 if total > 0 else 0`, exactly. */
  function Percentage(matched: nat, total: nat): (r: real)
    ensures total == 0 ==> r == 0.0
    ensures total > 0 ==> r * (total as real) == (matched as real) * 100.0
    ensures matched <= total ==> 0.0 <= r <= 100.0
    ensures total > 0 && matched <= total ==> (r == 100.0 <==> matched == total)
  {
    if total > 0 then (matched as real) / (total as real) * 100.0 else 0.0
  }

  function Min(a: int, b: int): int { if a <= b then a else b }
  function Max(a: int, b: int): int { if a >= b then a else b }
}
