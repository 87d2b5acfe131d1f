/**
 * The rule-based job-description parser of `src/parsers/jd_parser.py`, on
 * the path it takes when no spaCy model is installed.
 *
 * The title templates and the experience patterns are irregular regular
 * expressions (lazy groups, alternations of optional parts); the parser is
 * given what they capture.  Every other pattern is written out below or in
 * module `Patterns`.
 */
module JdParser {
  import opened Wrappers
  import opened TextUtil
  import opened Patterns

  // ---------------------------------------------------------------------
  // Job title
  // ---------------------------------------------------------------------

  /** `re.sub(r'\s+', ' ', s)`: every whitespace run becomes one space. */
  function CollapseSpace(s: string): (r: string)
    ensures |r| <= |s|
    ensures s != [] ==> r != [] && (IsSpace(r[0]) <==> IsSpace(s[0]))
    ensures forall i :: 0 <= i < |r| && IsSpace(r[i]) ==> r[i] == ' '
    ensures forall i :: 0 <= i < |r| - 1 ==> !(IsSpace(r[i]) && IsSpace(r[i + 1]))
    decreases |s|
  {
    if s == [] then []
    else if IsSpace(s[0]) then
      var rest := CollapseSpace(s[SpanSpace(s)..]);
      assert SpanSpace(s) < |s| ==> !IsSpace(s[SpanSpace(s)..][0]);
      " " + rest
    else [s[0]] + CollapseSpace(s[1..])
  }

  /** A captured title as the parser cleans it: stripped, whitespace runs collapsed. */
  function CleanTitle(g: string): string {
    CollapseSpace(Strip(g))
  }

  /** A capture the parser accepts as a title: at most six words once cleaned. */
  predicate AcceptedCapture(c: Option<string>) {
    c.Some? && WordCount(CleanTitle(c.value)) <= 6
  }

  /** Every word that begins with a letter begins with a capital. */
  predicate InitialsCapital(words: seq<string>) {
    forall k :: 0 <= k < |words| && words[k] != [] && IsAlpha(words[k][0]) ==> IsUpper(words[k][0])
  }

  /** The words of a `.`-separated fragment (`sent.strip().split()`). */
  function FragmentWords(sent: string): seq<string> {
    SplitWs(Strip(sent))
  }

  /** A fragment the fallback accepts: two to five words, all alphabetic initials capitals. */
  predicate TitleLike(sent: string) {
    2 <= |FragmentWords(sent)| <= 5 && InitialsCapital(FragmentWords(sent))
  }

  /** The fragments of the first 500 characters, split at every `.`. */
  function LeadFragments(text: string): (r: seq<string>)
    ensures |r| >= 1
  {
    SplitOn(text[..Min(500, |text|)], '.')
  }

  const UnknownTitle := "Unknown Title"

  /**
   * The title `extract_job_title` returns, given the first capture of each
   * title template (`None` when the template does not match): the first
   * accepted capture, cleaned; otherwise the first title-like fragment of
   * the opening 500 characters, its words joined by single spaces;
   * otherwise the sentinel.
   */
  function JobTitle(caps: seq<Option<string>>, text: string): (r: string)
    ensures FirstWhere(caps, AcceptedCapture, 0).Some? ==> r == CleanTitle(caps[FirstWhere(caps, AcceptedCapture, 0).value].value)
    ensures FirstWhere(caps, AcceptedCapture, 0).None? && FirstWhere(LeadFragments(text), TitleLike, 0).Some? ==>
      r == Join(FragmentWords(LeadFragments(text)[FirstWhere(LeadFragments(text), TitleLike, 0).value]), " ")
    ensures FirstWhere(caps, AcceptedCapture, 0).None? && FirstWhere(LeadFragments(text), TitleLike, 0).None? ==> r == UnknownTitle
  {
    match FirstWhere(caps, AcceptedCapture, 0)
    case Some(k) => CleanTitle(caps[k].value)
    case None =>
      var sents := LeadFragments(text);
      match FirstWhere(sents, TitleLike, 0)
      case Some(k) => Join(FragmentWords(sents[k]), " ")
      case None => UnknownTitle
  }

  /** "Unknown Title" has two words. */
  lemma UnknownTitleWords()
    ensures WordCount(UnknownTitle) == 2
  {
    var ws := ["Unknown", "Title"];
    assert IsToken(ws[0]) && IsToken(ws[1]);
    assert Join(ws, " ") == UnknownTitle;
    SplitJoinRoundTrip(ws);
  }

  /** Whatever the text, the title has at most six words. */
  lemma JobTitleWords(caps: seq<Option<string>>, text: string)
    ensures WordCount(JobTitle(caps, text)) <= 6
  {
    if FirstWhere(caps, AcceptedCapture, 0).None? {
      var sents := LeadFragments(text);
      match FirstWhere(sents, TitleLike, 0)
      case Some(k) => SplitJoinRoundTrip(FragmentWords(sents[k]));
      case None => UnknownTitleWords();
    }
  }

  /** The first loop of `extract_job_title`: the first capture that cleans to at most six words. */
  method FindCapturedTitle(caps: seq<Option<string>>) returns (r: Option<string>)
    ensures r.Some? <==> FirstWhere(caps, AcceptedCapture, 0).Some?
    ensures r.Some? ==> r.value == CleanTitle(caps[FirstWhere(caps, AcceptedCapture, 0).value].value)
  {
    for k := 0 to |caps|
      invariant FirstWhere(caps, AcceptedCapture, 0) == FirstWhere(caps, AcceptedCapture, k)
    {
      var m := caps[k];
      if m.Some? {
        var title := CollapseSpace(Strip(m.value));
        if WordCount(title) <= 6 {
          return Some(title);
        }
      }
    }
    return None;
  }

  /** The fallback loop of `extract_job_title` over the fragments of the first 500 characters. */
  method FindFallbackTitle(text: string) returns (r: Option<string>)
    ensures r.Some? <==> FirstWhere(LeadFragments(text), TitleLike, 0).Some?
    ensures r.Some? ==> r.value == Join(FragmentWords(LeadFragments(text)[FirstWhere(LeadFragments(text), TitleLike, 0).value]), " ")
  {
    var firstPara := text[..Min(500, |text|)];
    var sents := SplitOn(firstPara, '.');
    for k := 0 to |sents|
      invariant FirstWhere(sents, TitleLike, 0) == FirstWhere(sents, TitleLike, k)
    {
      var words := SplitWs(Strip(sents[k]));
      if 2 <= |words| <= 5 && InitialsCapital(words) {
        return Some(Join(words, " "));
      }
    }
    return None;
  }

  // ---------------------------------------------------------------------
  // Technical skills
  // ---------------------------------------------------------------------

  const Programming: seq<string> := ["Python", "Java", "JavaScript", "R", "SQL", "C++", "Scala", "Ruby", "Go", "TypeScript"]
  const Tools: seq<string> := ["Tableau", "Power BI", "Excel", "JIRA", "Git", "Docker", "AWS", "Azure", "GCP", "Kubernetes", "Jenkins"]
  const Frameworks: seq<string> := ["React", "Angular", "Django", "Flask", "Pandas", "NumPy", "TensorFlow", "PyTorch", "Spark"]
  const Databases: seq<string> := ["PostgreSQL", "MySQL", "MongoDB", "Redis", "Cassandra", "Oracle", "Snowflake", "Redshift"]
  const Methodologies: seq<string> := ["Agile", "Scrum", "Kanban", "Waterfall", "DevOps", "CI/CD"]

  /** The alternatives of each `\b(...)\b` skill pattern, category by category. */
  const SkillPatterns: seq<seq<string>> := [Programming, Tools, Frameworks, Databases, Methodologies]

  /**
   * Alternative `a` matches at offset `i` of `t` ignoring case, and a word
   * boundary follows it.
   */
  predicate AltMatchesAt(t: string, a: string, i: nat) {
    a != [] && i + |a| <= |t| && Lower(t[i..i + |a|]) == Lower(a) && Boundary(t, i + |a|)
  }

  /** The first alternative at or after `k` that matches at `i` (the engine backtracks into the next one). */
  function FirstAltFrom(t: string, alts: seq<string>, i: nat, k: nat): (r: Option<nat>)
    requires k <= |alts|
    ensures r.Some? ==> k <= r.value < |alts| && AltMatchesAt(t, alts[r.value], i)
    ensures r.None? ==> forall m :: k <= m < |alts| ==> !AltMatchesAt(t, alts[m], i)
    decreases |alts| - k
  {
    if k == |alts| then None
    else if AltMatchesAt(t, alts[k], i) then Some(k)
    else FirstAltFrom(t, alts, i, k + 1)
  }

  /** The length of the match of `\b(alts)\b` tried at offset `i`, if any. */
  function SkillMatchAt(t: string, alts: seq<string>, i: nat): (r: Option<nat>)
    ensures r.Some? ==> 0 < r.value && i + r.value <= |t|
  {
    if !Boundary(t, i) then None
    else match FirstAltFrom(t, alts, i, 0)
      case Some(k) => Some(|alts[k]|)
      case None => None
  }

  /** `x` is the text at offset `p` of `t`, a case-insensitive whole-word occurrence of an alternative. */
  predicate SkillSpanAt(t: string, alts: seq<string>, p: int, x: string) {
    0 <= p && p + |x| <= |t| && t[p..p + |x|] == x && Boundary(t, p) && Boundary(t, p + |x|) &&
    exists k :: 0 <= k < |alts| && Lower(x) == Lower(alts[k])
  }

  /**
   * `[m.group(0) for m in re.finditer(pattern, t, re.IGNORECASE)]` from
   * offset `i` on: each match resumes the scan after itself.
   */
  function SkillMatchesFrom(t: string, alts: seq<string>, i: nat): (r: seq<string>)
    requires i <= |t|
    decreases |t| - i
  {
    if i == |t| then []
    else match SkillMatchAt(t, alts, i)
      case Some(n) => [t[i..i + n]] + SkillMatchesFrom(t, alts, i + n)
      case None => SkillMatchesFrom(t, alts, i + 1)
  }

  /** Every match reported is a whole-word occurrence of an alternative, in the original case. */
  lemma {:induction false} SkillMatchesAreSpans(t: string, alts: seq<string>, i: nat)
    requires i <= |t|
    ensures forall x :: x in SkillMatchesFrom(t, alts, i) ==> exists p :: i <= p && SkillSpanAt(t, alts, p, x)
    decreases |t| - i
  {
    if i < |t| {
      match SkillMatchAt(t, alts, i)
      case Some(n) =>
        SkillMatchesAreSpans(t, alts, i + n);
        var k := FirstAltFrom(t, alts, i, 0).value;
        assert SkillSpanAt(t, alts, i, t[i..i + n]);
      case None =>
        SkillMatchesAreSpans(t, alts, i + 1);
    }
  }

  /** `for x in xs: s.add(x)`. */
  method AddAll(s: set<string>, xs: seq<string>) returns (r: set<string>)
    ensures r == s + Elems(xs)
  {
    r := s;
    for m := 0 to |xs|
      invariant r == s + Elems(xs[..m])
    {
      r := r + {xs[m]};
      ElemsAppend(xs[..m], [xs[m]]);
      assert xs[..m + 1] == xs[..m] + [xs[m]];
    }
    assert xs[..|xs|] == xs;
  }

  /** The matches of the skill patterns, pattern by pattern. */
  function MatchesOfPatterns(t: string, pats: seq<seq<string>>): seq<string> {
    if pats == [] then []
    else MatchesOfPatterns(t, pats[..|pats| - 1]) + SkillMatchesFrom(t, pats[|pats| - 1], 0)
  }

  /** One more pattern adds the elements of its matches. */
  lemma MatchesOfPatternsStep(t: string, pats: seq<seq<string>>, c: nat)
    requires c < |pats|
    ensures Elems(MatchesOfPatterns(t, pats[..c + 1])) ==
      Elems(MatchesOfPatterns(t, pats[..c])) + Elems(SkillMatchesFrom(t, pats[c], 0))
  {
    assert pats[..c + 1][..c] == pats[..c];
    ElemsAppend(MatchesOfPatterns(t, pats[..c]), SkillMatchesFrom(t, pats[c], 0));
  }

  /** The set `extract_technical_skills` builds before sorting it. */
  function TechnicalSkillSet(t: string): set<string> {
    Elems(MatchesOfPatterns(t, SkillPatterns))
  }

  /** Every skill found is a whole-word occurrence, in the text, of some category's alternative. */
  lemma {:induction false} TechnicalSkillsAreSpans(t: string, pats: seq<seq<string>>)
    ensures forall x :: x in MatchesOfPatterns(t, pats) ==>
      exists c, p :: 0 <= c < |pats| && SkillSpanAt(t, pats[c], p, x)
    decreases |pats|
  {
    if pats != [] {
      var init := pats[..|pats| - 1];
      var last := pats[|pats| - 1];
      TechnicalSkillsAreSpans(t, init);
      SkillMatchesAreSpans(t, last, 0);
      forall x | x in MatchesOfPatterns(t, pats)
        ensures exists c, p :: 0 <= c < |pats| && SkillSpanAt(t, pats[c], p, x)
      {
        if x in MatchesOfPatterns(t, init) {
          var c, p :| 0 <= c < |init| && SkillSpanAt(t, init[c], p, x);
          assert pats[c] == init[c];
        } else {
          var p :| 0 <= p && SkillSpanAt(t, last, p, x);
          assert pats[|pats| - 1] == last;
        }
      }
    }
  }

  /**
   * A "C++" at the end of a word-free tail is never reported: the `\b`
   * after `C\+\+` needs a word character to follow the second `+`.
   */
  lemma CppAtEndNotFound()
    ensures SkillMatchesFrom("C++", Programming, 0) == []
  {
    var t := "C++";
    NoSkillAtStartOfCpp();
    NoSkillAfterC();
    assert !Boundary(t, 2);
    assert SkillMatchesFrom(t, Programming, 2) == [];
  }

  /** At offset 0 of "C++" only the "C++" alternative fits, and no boundary follows it. */
  lemma NoSkillAtStartOfCpp()
    ensures SkillMatchAt("C++", Programming, 0).None?
  {
    var t := "C++";
    assert !AltMatchesAt(t, "C++", 0) by { assert !Boundary(t, 3); }
    assert FirstAltFrom(t, Programming, 0, 0).None?;
  }

  /** At offset 1 of "C++" no alternative starts. */
  lemma NoSkillAfterC()
    ensures SkillMatchAt("C++", Programming, 1).None?
  {
    assert FirstAltFrom("C++", Programming, 1, 0).None?;
  }

  // ---------------------------------------------------------------------
  // Marker windows, required and preferred skills
  // ---------------------------------------------------------------------

  const RequiredMarkers: seq<string> := ["required", "must have", "essential", "mandatory", "must", "need"]
  const PreferredMarkers: seq<string> := ["preferred", "nice to have", "desirable", "bonus", "plus", "advantage"]

  /**
   * The slice `text[start:start + 500]` where `start` is the first index of
   * `marker` in the lower-cased text, or nothing when the marker is absent.
   * Lower-casing keeps lengths, so that index also indexes `text`.
   */
  function Window(text: string, marker: string): (r: string)
    ensures |r| <= 500
    ensures !Contains(Lower(text), marker) ==> r == []
    ensures Contains(Lower(text), marker) ==>
      var start := Find(Lower(text), marker).value;
      |r| == Min(500, |text| - start)
  {
    match Find(Lower(text), marker)
    case None => []
    case Some(start) => text[start..Min(start + 500, |text|)]
  }

  /** A present marker of at most 500 characters opens its window (compared in lower case). */
  lemma WindowStartsWithMarker(text: string, marker: string)
    requires Contains(Lower(text), marker) && |marker| <= 500
    ensures marker <= Lower(Window(text, marker))
  {
    var start := Find(Lower(text), marker).value;
    var w := Window(text, marker);
    assert w == text[start..Min(start + 500, |text|)];
    assert OccursAt(Lower(text), marker, start);
    forall i | 0 <= i < |marker| ensures marker[i] == Lower(w)[i] {
      assert Lower(text)[start..][i] == marker[i];
    }
  }

  /** The windows of the markers, concatenated in marker order. */
  function Windows(text: string, markers: seq<string>): (r: string)
    ensures |r| <= 500 * |markers|
  {
    if markers == [] then []
    else Windows(text, markers[..|markers| - 1]) + Window(text, markers[|markers| - 1])
  }

  /** The loop of `extract_required_vs_preferred` that concatenates the windows of one marker list. */
  method ConcatWindows(text: string, textLower: string, markers: seq<string>) returns (section: string)
    requires textLower == Lower(text)
    ensures section == Windows(text, markers)
  {
    section := [];
    for k := 0 to |markers|
      invariant section == Windows(text, markers[..k])
    {
      var marker := markers[k];
      if Contains(textLower, marker) {
        var start := Find(textLower, marker).value;
        var end := Min(start + 500, |textLower|);
        section := section + text[start..end];
      }
      assert markers[..k + 1][..k] == markers[..k];
    }
    assert markers[..|markers|] == markers;
  }

  /** The list items of the required-marker windows and of the preferred-marker windows. */
  datatype RequiredPreferred = RequiredPreferred(required: seq<string>, preferred: seq<string>)

  function RequiredVsPreferred(text: string): RequiredPreferred {
    RequiredPreferred(ExtractBullets(Windows(text, RequiredMarkers)), ExtractBullets(Windows(text, PreferredMarkers)))
  }

  /** Every required or preferred item is a single line. */
  lemma RequiredPreferredItemsAreLines(text: string)
    ensures forall k :: 0 <= k < |RequiredVsPreferred(text).required| ==> NoNewline(RequiredVsPreferred(text).required[k])
    ensures forall k :: 0 <= k < |RequiredVsPreferred(text).preferred| ==> NoNewline(RequiredVsPreferred(text).preferred[k])
  {
    var a := Windows(text, RequiredMarkers);
    var b := Windows(text, PreferredMarkers);
    ItemsAreSingleLines(a, Glyph, 0);
    ItemsAreSingleLines(a, Numbered, 0);
    ItemsAreSingleLines(b, Glyph, 0);
    ItemsAreSingleLines(b, Numbered, 0);
    var ra := ExtractBullets(a);
    assert forall k :: 0 <= k < |ra| ==> ra[k] in FindItemsFrom(a, Glyph, 0) || ra[k] in FindItemsFrom(a, Numbered, 0);
    var rb := ExtractBullets(b);
    assert forall k :: 0 <= k < |rb| ==> rb[k] in FindItemsFrom(b, Glyph, 0) || rb[k] in FindItemsFrom(b, Numbered, 0);
  }

  // ---------------------------------------------------------------------
  // Verbatim phrases
  // ---------------------------------------------------------------------

  /** A sentence break `[.!?]\s+` starts at offset `i`. */
  predicate BreakAt(s: string, i: int) {
    0 <= i && i + 1 < |s| && (s[i] == '.' || s[i] == '!' || s[i] == '?') && IsSpace(s[i + 1])
  }

  /** The first offset at or after `from` where a sentence break starts, or `|s|`. */
  function BreakFrom(s: string, from: nat): (i: nat)
    requires from <= |s|
    ensures from <= i <= |s|
    ensures i < |s| ==> BreakAt(s, i)
    ensures forall j :: from <= j < i ==> !BreakAt(s, j)
    decreases |s| - from
  {
    if from == |s| || BreakAt(s, from) then from else BreakFrom(s, from + 1)
  }

  /** `re.split(r'[.!?]\s+', s)`: no piece holds a sentence break. */
  function SplitSentences(s: string): (r: seq<string>)
    ensures |r| >= 1
    ensures forall k, j :: 0 <= k < |r| ==> !BreakAt(r[k], j)
    decreases |s|
  {
    var i := BreakFrom(s, 0);
    if i == |s| then
      assert forall j :: !BreakAt(s, j) by {
        forall j ensures !BreakAt(s, j) { if 0 <= j < |s| { } }
      }
      [s]
    else
      var next := i + 1 + SpanSpace(s[i + 1..]);
      var rest := SplitSentences(s[next..]);
      assert forall j :: !BreakAt(s[..i], j) by {
        forall j | BreakAt(s[..i], j) ensures false {
          assert s[..i][j] == s[j] && s[..i][j + 1] == s[j + 1];
          assert BreakAt(s, j);
        }
      }
      [s[..i]] + rest
  }

  const SkillIndicators: seq<string> := [
    "ability to", "experience with", "proficient in", "knowledge of", "skilled in",
    "expertise in", "strong skills", "demonstrated experience", "proven ability"]

  /** A stripped sentence the phrase extractor keeps. */
  predicate IsVerbatim(sent: string, minLength: int, maxLength: int) {
    sent != [] && minLength <= WordCount(sent) <= maxLength && ContainsAny(Lower(sent), SkillIndicators)
  }

  /** `f` of each entry of `xs`. */
  function Mapped(xs: seq<string>, f: string -> string): (r: seq<string>)
    ensures |r| == |xs|
    ensures forall k :: 0 <= k < |xs| ==> r[k] == f(xs[k])
  {
    seq(|xs|, k requires 0 <= k < |xs| => f(xs[k]))
  }

  /** `[f(x) for x in xs if keep(f(x))]`: the mapped entries `keep` accepts, in order. */
  function FilterMapped(xs: seq<string>, f: string -> string, keep: string -> bool): (r: seq<string>)
    ensures |r| <= |xs|
  {
    if xs == [] then []
    else
      var init := FilterMapped(xs[..|xs| - 1], f, keep);
      var y := f(xs[|xs| - 1]);
      if keep(y) then init + [y] else init
  }

  /** An entry is kept exactly when it is the image of an entry and accepted. */
  lemma {:induction false} FilterMappedSpec(xs: seq<string>, f: string -> string, keep: string -> bool)
    ensures forall y :: y in FilterMapped(xs, f, keep) <==> exists k :: 0 <= k < |xs| && y == f(xs[k]) && keep(y)
  {
    if xs != [] {
      var init := xs[..|xs| - 1];
      FilterMappedSpec(init, f, keep);
      forall y | exists k :: 0 <= k < |xs| && y == f(xs[k]) && keep(y)
        ensures y in FilterMapped(xs, f, keep)
      {
        var k :| 0 <= k < |xs| && y == f(xs[k]) && keep(y);
        if k < |init| { assert init[k] == xs[k]; }
      }
      forall y | y in FilterMapped(xs, f, keep)
        ensures exists k :: 0 <= k < |xs| && y == f(xs[k]) && keep(y)
      {
        if y in FilterMapped(init, f, keep) {
          var k :| 0 <= k < |init| && y == f(init[k]) && keep(y);
          assert init[k] == xs[k];
        }
      }
    }
  }

  /** The kept entries keep the order of the list. */
  lemma {:induction false} FilterMappedInOrder(xs: seq<string>, f: string -> string, keep: string -> bool)
    ensures IsSubsequence(FilterMapped(xs, f, keep), Mapped(xs, f))
  {
    if xs != [] {
      var init := xs[..|xs| - 1];
      FilterMappedInOrder(init, f, keep);
      assert Mapped(xs, f)[..|xs| - 1] == Mapped(init, f);
    }
  }

  /** The sentences the phrase extractor keeps, stripped, in sentence order. */
  function VerbatimOf(sents: seq<string>, minLength: int, maxLength: int): (r: seq<string>) {
    FilterMapped(sents, Strip, s => IsVerbatim(s, minLength, maxLength))
  }

  /** `extract_verbatim_phrases(min_length, max_length)`. */
  function VerbatimPhrases(text: string, minLength: int, maxLength: int): seq<string> {
    Take(VerbatimOf(SplitSentences(text), minLength, maxLength), 10)
  }

  /**
   * At most ten phrases, each a whole stripped sentence of the text with the
   * right length and an indicator, in the order of the text.
   */
  lemma VerbatimPhrasesSpec(text: string, minLength: int, maxLength: int)
    ensures |VerbatimPhrases(text, minLength, maxLength)| <= 10
    ensures forall x :: x in VerbatimPhrases(text, minLength, maxLength) ==>
      IsVerbatim(x, minLength, maxLength) && x in Mapped(SplitSentences(text), Strip)
    ensures IsSubsequence(VerbatimOf(SplitSentences(text), minLength, maxLength), Mapped(SplitSentences(text), Strip))
  {
    var sents := SplitSentences(text);
    var keep := s => IsVerbatim(s, minLength, maxLength);
    FilterMappedSpec(sents, Strip, keep);
    FilterMappedInOrder(sents, Strip, keep);
    var all := VerbatimOf(sents, minLength, maxLength);
    forall x | x in VerbatimPhrases(text, minLength, maxLength)
      ensures IsVerbatim(x, minLength, maxLength) && x in Mapped(sents, Strip)
    {
      assert x in all;
      var k :| 0 <= k < |sents| && x == Strip(sents[k]) && keep(x);
      assert Mapped(sents, Strip)[k] == x;
    }
  }

  /** Every sentence of the text that qualifies is kept, as long as there are at most ten. */
  lemma VerbatimPhrasesComplete(text: string, minLength: int, maxLength: int, k: nat)
    requires k < |SplitSentences(text)|
    requires IsVerbatim(Strip(SplitSentences(text)[k]), minLength, maxLength)
    requires |VerbatimOf(SplitSentences(text), minLength, maxLength)| <= 10
    ensures Strip(SplitSentences(text)[k]) in VerbatimPhrases(text, minLength, maxLength)
  {
    FilterMappedSpec(SplitSentences(text), Strip, s => IsVerbatim(s, minLength, maxLength));
  }

  /** The loop of `extract_verbatim_phrases`, then the cut to ten. */
  method ExtractVerbatimPhrases(text: string, minLength: int, maxLength: int) returns (r: seq<string>)
    ensures r == VerbatimPhrases(text, minLength, maxLength)
  {
    var sentences := SplitSentences(text);
    var phrases: seq<string> := [];
    for k := 0 to |sentences|
      invariant phrases == VerbatimOf(sentences[..k], minLength, maxLength)
    {
      var sent := Strip(sentences[k]);
      assert sentences[..k + 1][..k] == sentences[..k];
      if sent == [] {
        continue;
      }
      var wordCount := WordCount(sent);
      if minLength <= wordCount <= maxLength {
        var sentLower := Lower(sent);
        if ContainsAny(sentLower, SkillIndicators) {
          phrases := phrases + [sent];
        }
      }
    }
    assert sentences[..|sentences|] == sentences;
    r := Take(phrases, 10);
  }

  // ---------------------------------------------------------------------
  // Company values
  // ---------------------------------------------------------------------

  const ValueMarkers: seq<string> := ["our values", "company values", "core values", "we believe", "our culture", "values we"]

  /** The capitalised words kept for each present marker (at most five per window), in marker order. */
  function ValuesOf(text: string, markers: seq<string>): (r: seq<string>)
    ensures |r| <= 5 * |markers|
    ensures forall k :: 0 <= k < |r| ==> IsCapitalized(r[k])
  {
    if markers == [] then []
    else
      var init := ValuesOf(text, markers[..|markers| - 1]);
      var marker := markers[|markers| - 1];
      if Contains(Lower(text), marker) then init + Take(CapitalizedWords(Window(text, marker)), 5) else init
  }

  /** The values `extract_company_values` returns, as a set (`list(set(values))`). */
  function CompanyValues(text: string): set<string> {
    Elems(ValuesOf(text, ValueMarkers))
  }

  /** At most thirty distinct values, each a capitalised word. */
  lemma CompanyValuesSpec(text: string)
    ensures |CompanyValues(text)| <= 30
    ensures forall v :: v in CompanyValues(text) ==> IsCapitalized(v)
  {
    ElemsSize(ValuesOf(text, ValueMarkers));
  }

  lemma ValuesStep(text: string, markers: seq<string>, k: nat)
    requires k < |markers|
    ensures ValuesOf(text, markers[..k + 1]) ==
      ValuesOf(text, markers[..k]) + (if Contains(Lower(text), markers[k]) then Take(CapitalizedWords(Window(text, markers[k])), 5) else [])
  {
    assert markers[..k + 1][..k] == markers[..k];
  }

  /** `extract_company_values`: the list is the set of kept words in the runtime's set order. */
  method ExtractCompanyValues(text: string, textLower: string) returns (r: seq<string>)
    requires textLower == Lower(text)
    ensures Enumerates(r, CompanyValues(text))
  {
    var values: seq<string> := [];
    for k := 0 to |ValueMarkers|
      invariant values == ValuesOf(text, ValueMarkers[..k])
    {
      var marker := ValueMarkers[k];
      ValuesStep(text, ValueMarkers, k);
      if Contains(textLower, marker) {
        var start := Find(textLower, marker).value;
        var section := text[start..Min(start + 500, |text|)];
        assert section == Window(text, marker);
        var valueWords := CapitalizedWords(section);
        values := values + Take(valueWords, 5);
      }
    }
    assert ValueMarkers[..|ValueMarkers|] == ValueMarkers;
    r := SetToSeq(Elems(values));
  }

  // ---------------------------------------------------------------------
  // Structure
  // ---------------------------------------------------------------------

  /** Section headers, responsibility bullets and requirement bullets, in the order found. */
  datatype Structure = Structure(sections: seq<string>, responsibilities: seq<string>, requirements: seq<string>)

  /** Which list the bullets under a header go to. */
  datatype HeaderKind = ResponsibilityHeader | RequirementHeader | OtherHeader

  function KindOf(header: string): HeaderKind {
    var h := Lower(header);
    if Contains(h, "responsibilit") || Contains(h, "what you") then ResponsibilityHeader
    else if Contains(h, "requirement") || Contains(h, "about you") || Contains(h, "qualification") then RequirementHeader
    else OtherHeader
  }

  /** How the bullet scan under a header treats a line. */
  datatype LineClass =
    | BulletLine(text: string)  // `re.match(r'[•\-\*]\s*(.+)', line.strip())` succeeds; the stripped group
    | StopLine                  // not a bullet, not blank, and not starting with a capital
    | OtherLine                 // blank, or starting with a capital

  function Classify(line: string): LineClass {
    var t := Strip(line);
    match MatchBullet(t)
    case Some(b) => BulletLine(b)
    case None => if t != [] && !StartsUpper(t) then StopLine else OtherLine
  }

  /** The class of a line, from its stripped text and the bullet match on it. */
  lemma ClassifyFrom(line: string, t: string, m: Option<string>)
    requires t == Strip(line) && m == MatchBullet(t)
    ensures m.Some? ==> Classify(line) == BulletLine(m.value)
    ensures m.None? && t != [] && !StartsUpper(t) ==> Classify(line) == StopLine
    ensures m.None? && !(t != [] && !StartsUpper(t)) ==> Classify(line) == OtherLine
  {
  }

  /** The class of every line. */
  function Classes(lines: seq<string>): (r: seq<LineClass>)
    ensures |r| == |lines|
  {
    if lines == [] then [] else Classes(lines[..|lines| - 1]) + [Classify(lines[|lines| - 1])]
  }

  lemma {:induction false} ClassesAt(lines: seq<string>, k: nat)
    requires k < |lines|
    ensures Classes(lines)[k] == Classify(lines[k])
  {
    if k < |lines| - 1 {
      ClassesAt(lines[..|lines| - 1], k);
    }
  }

  /** The bullets of lines `j .. hi - 1`, up to the first line that stops the scan. */
  function BulletsFrom(cls: seq<LineClass>, j: nat, hi: nat): (r: seq<string>)
    requires j <= hi <= |cls|
    ensures |r| <= hi - j
    decreases hi - j
  {
    if j == hi then []
    else match cls[j]
      case BulletLine(b) => [b] + BulletsFrom(cls, j + 1, hi)
      case StopLine => []
      case OtherLine => BulletsFrom(cls, j + 1, hi)
  }

  /** The bullets collected under a header on line `i`: a scan of at most 19 lines. */
  function BulletsUnder(lines: seq<string>, i: nat): (r: seq<string>)
    requires i < |lines|
    ensures |r| <= 19
  {
    BulletsFrom(Classes(lines), i + 1, Min(i + 20, |lines|))
  }

  /** A line that stops the scan hides every line after it. */
  lemma {:induction false} ScanStopsAt(cls: seq<LineClass>, j: nat, stop: nat, hi: nat)
    requires j <= stop < hi <= |cls|
    requires cls[stop] == StopLine
    ensures BulletsFrom(cls, j, hi) == BulletsFrom(cls, j, stop)
    decreases stop - j
  {
    if j < stop {
      ScanStopsAt(cls, j + 1, stop, hi);
    }
  }

  /** Every bullet collected comes from a bullet line of the scanned range. */
  lemma {:induction false} BulletsFromBulletLines(cls: seq<LineClass>, j: nat, hi: nat)
    requires j <= hi <= |cls|
    ensures forall b :: b in BulletsFrom(cls, j, hi) ==> exists k :: j <= k < hi && cls[k] == BulletLine(b)
    decreases hi - j
  {
    if j < hi {
      BulletsFromBulletLines(cls, j + 1, hi);
    }
  }

  /** What one header pattern adds for line `i`. */
  function HeaderStep(s: Structure, lines: seq<string>, i: nat, p: HeaderPattern): Structure
    requires i < |lines|
  {
    match MatchHeader(p, Strip(lines[i]))
    case None => s
    case Some(h) =>
      match KindOf(h)
      case ResponsibilityHeader => Structure(s.sections + [h], s.responsibilities + BulletsUnder(lines, i), s.requirements)
      case RequirementHeader => Structure(s.sections + [h], s.responsibilities, s.requirements + BulletsUnder(lines, i))
      case OtherHeader => Structure(s.sections + [h], s.responsibilities, s.requirements)
  }

  /** Line `i` tried against the first `k` header patterns; every pattern that matches counts. */
  function LineStep(s: Structure, lines: seq<string>, i: nat, k: nat): Structure
    requires i < |lines| && k <= |HeaderPatterns|
  {
    if k == 0 then s else HeaderStep(LineStep(s, lines, i, k - 1), lines, i, HeaderPatterns[k - 1])
  }

  /** The structure after the first `n` lines. */
  function StructureUpTo(lines: seq<string>, n: nat): Structure
    requires n <= |lines|
  {
    if n == 0 then Structure([], [], []) else LineStep(StructureUpTo(lines, n - 1), lines, n - 1, |HeaderPatterns|)
  }

  /** `analyze_structure` on the text. */
  function StructureOf(text: string): Structure {
    var lines := SplitOn(text, '\n');
    StructureUpTo(lines, |lines|)
  }

  /** A line matching two header shapes is recorded twice: `"A :"` is both ALL-CAPS and Title-case. */
  lemma HeaderRecordedTwice()
    ensures StructureOf("A :").sections == ["A", "A"]
  {
    var lines := ["A :"];
    SingleLine();
    HeaderStepsOfA();
    var s0 := Structure([], [], []);
    assert StructureUpTo(lines, 0) == s0;
    assert HeaderPatterns[0] == AllCaps && HeaderPatterns[1] == TitleCase && HeaderPatterns[2] == MarkdownBold;
    assert LineStep(s0, lines, 0, 1) == Structure(["A"], [], []);
    assert LineStep(s0, lines, 0, 2) == Structure(["A", "A"], [], []);
    assert LineStep(s0, lines, 0, 3) == Structure(["A", "A"], [], []);
  }

  /** The three header patterns on the line `"A :"`, one after the other. */
  lemma HeaderStepsOfA()
    ensures HeaderStep(Structure([], [], []), ["A :"], 0, AllCaps) == Structure(["A"], [], [])
    ensures HeaderStep(Structure(["A"], [], []), ["A :"], 0, TitleCase) == Structure(["A", "A"], [], [])
    ensures HeaderStep(Structure(["A", "A"], [], []), ["A :"], 0, MarkdownBold) == Structure(["A", "A"], [], [])
  {
    HeaderShapesOfA();
    KindOfA();
    var lines := ["A :"];
    assert lines[0] == "A :";
    HeaderStepOther(Structure([], [], []), lines, AllCaps, "A");
    HeaderStepOther(Structure(["A"], [], []), lines, TitleCase, "A");
    HeaderStepNone(Structure(["A", "A"], [], []), lines, MarkdownBold);
  }

  /** A pattern that does not match leaves the structure as it is. */
  lemma HeaderStepNone(s: Structure, lines: seq<string>, p: HeaderPattern)
    requires |lines| > 0 && MatchHeader(p, Strip(lines[0])).None?
    ensures HeaderStep(s, lines, 0, p) == s
  {
  }

  /** A header of the other kind only adds itself to the sections. */
  lemma HeaderStepOther(s: Structure, lines: seq<string>, p: HeaderPattern, h: string)
    requires |lines| > 0 && MatchHeader(p, Strip(lines[0])) == Some(h) && KindOf(h) == OtherHeader
    ensures HeaderStep(s, lines, 0, p) == Structure(s.sections + [h], s.responsibilities, s.requirements)
  {
  }

  lemma SingleLine()
    ensures SplitOn("A :", '\n') == ["A :"]
  {
    assert IndexOfChar("A :", '\n', 0) == 3;
  }

  /** `"A :"` matches the ALL-CAPS and the Title-case shapes, both with header "A", and not the bold one. */
  lemma HeaderShapesOfA()
    ensures Strip("A :") == "A :"
    ensures MatchHeader(AllCaps, "A :") == Some("A")
    ensures MatchHeader(TitleCase, "A :") == Some("A")
    ensures MatchHeader(MarkdownBold, "A :").None?
  {
    var t := "A :";
    assert SpanSpace(t) == 0 && t[0..] == t && TrailingSpace(t) == 0;
    assert t[..|t| - 1] == "A ";
    assert DropColon(t) == "A ";
    assert AllCapsHeader(t) == Some("A ");
    assert TitleCaseHeader(t) == Some("A ");
    StripA();
  }

  lemma StripA()
    ensures Strip("A ") == "A"
  {
    assert SpanSpace("A ") == 0 && "A "[0..] == "A ";
    assert TrailingSpace("A ") == 1;
  }

  lemma KindOfA()
    ensures KindOf("A") == OtherHeader
  {
    NoneContained(Lower("A"), ["responsibilit", "what you", "requirement", "about you", "qualification"]);
  }

  /** Collecting the bullet of line `j` keeps the scan's accounting. */
  lemma BulletStep(cls: seq<LineClass>, j: nat, hi: nat, bullets: seq<string>, all: seq<string>)
    requires j < hi <= |cls| && cls[j].BulletLine?
    requires bullets + BulletsFrom(cls, j, hi) == all
    ensures (bullets + [cls[j].text]) + BulletsFrom(cls, j + 1, hi) == all
  {
    var rest := BulletsFrom(cls, j + 1, hi);
    assert BulletsFrom(cls, j, hi) == [cls[j].text] + rest;
    assert (bullets + [cls[j].text]) + rest == bullets + ([cls[j].text] + rest);
  }

  /** The bullets of lines `lo .. hi - 1` as the method collects them. */
  method ScanBullets(lines: seq<string>, lo: nat, hi: nat) returns (bullets: seq<string>)
    requires lo <= hi <= |lines|
    ensures bullets == BulletsFrom(Classes(lines), lo, hi)
  {
    bullets := [];
    ghost var cls := Classes(lines);
    var j := lo;
    while j < hi
      invariant lo <= j <= hi
      invariant bullets + BulletsFrom(cls, j, hi) == BulletsFrom(cls, lo, hi)
      decreases hi - j
    {
      var t := Strip(lines[j]);
      var m := MatchBullet(t);
      ClassesAt(lines, j);
      ClassifyFrom(lines[j], t, m);
      if m.Some? {
        BulletStep(cls, j, hi, bullets, BulletsFrom(cls, lo, hi));
        bullets := bullets + [m.value];
      } else if t != [] && !StartsUpper(t) {
        assert cls[j] == StopLine;
        return;
      } else {
        assert cls[j] == OtherLine;
        assert BulletsFrom(cls, j, hi) == BulletsFrom(cls, j + 1, hi);
      }
      j := j + 1;
    }
  }

  /** `analyze_structure`: every header pattern is tried on every stripped line, with no break. */
  method AnalyzeStructure(text: string) returns (s: Structure)
    ensures s == StructureOf(text)
  {
    var lines := SplitOn(text, '\n');
    s := Structure([], [], []);
    for i := 0 to |lines|
      invariant s == StructureUpTo(lines, i)
    {
      var lineStripped := Strip(lines[i]);
      for k := 0 to |HeaderPatterns|
        invariant s == LineStep(StructureUpTo(lines, i), lines, i, k)
      {
        var m := MatchHeader(HeaderPatterns[k], lineStripped);
        if m.Some? {
          var header := m.value;
          s := s.(sections := s.sections + [header]);
          var kind := KindOf(header);
          if kind == ResponsibilityHeader {
            var bullets := ScanBullets(lines, i + 1, Min(i + 20, |lines|));
            s := s.(responsibilities := s.responsibilities + bullets);
          } else if kind == RequirementHeader {
            var bullets := ScanBullets(lines, i + 1, Min(i + 20, |lines|));
            s := s.(requirements := s.requirements + bullets);
          }
        }
      }
    }
  }

  // ---------------------------------------------------------------------
  // Keyword density (the regular-expression fallback)
  // ---------------------------------------------------------------------

  const StopWords: set<string> := {"that", "this", "with", "from", "have", "will", "would", "could", "should"}

  /** The words kept from a list of word runs. */
  function NonStop(ws: seq<string>): (r: seq<string>)
    ensures |r| <= |ws|
    ensures forall x :: x in r <==> x in ws && x !in StopWords
  {
    if ws == [] then []
    else NonStop(ws[..|ws| - 1]) + (if ws[|ws| - 1] in StopWords then [] else [ws[|ws| - 1]])
  }

  /** The counted words: lower-case runs of four or more letters of the lower-cased text, minus the stop words. */
  function DensityWords(text: string): (r: seq<string>)
    ensures forall x :: x in r ==> IsLongLowerWord(x) && x !in StopWords
  {
    NonStop(LongLowerWords(Lower(text)))
  }

  /** The first index of `w` among the tally's words, or `|tally|`. */
  function IndexOfWord(tally: seq<(string, nat)>, w: string): (i: nat)
    ensures i <= |tally|
    ensures i < |tally| ==> tally[i].0 == w
    ensures forall k :: 0 <= k < i ==> tally[k].0 != w
  {
    if tally == [] then 0
    else if tally[0].0 == w then 0
    else 1 + IndexOfWord(tally[1..], w)
  }

  /** The words of a tally. */
  function Keys(tally: seq<(string, nat)>): (r: seq<string>)
    ensures |r| == |tally|
    ensures forall k :: 0 <= k < |tally| ==> r[k] == tally[k].0
  {
    seq(|tally|, k requires 0 <= k < |tally| => tally[k].0)
  }

  /** `Counter(words)`: each distinct word once, in order of first appearance, with its count. */
  function Tally(words: seq<string>): (r: seq<(string, nat)>)
    ensures Distinct(Keys(r))
    ensures forall x :: x in Keys(r) <==> x in words
    ensures forall k :: 0 <= k < |r| ==> r[k].1 == multiset(words)[r[k].0]
  {
    if words == [] then []
    else
      var init := words[..|words| - 1];
      var w := words[|words| - 1];
      assert words == init + [w];
      assert multiset(words) == multiset(init) + multiset{w};
      var t := Tally(init);
      var i := IndexOfWord(t, w);
      if i < |t| then
        var r := t[i := (w, t[i].1 + 1)];
        assert Keys(r) == Keys(t);
        r
      else
        var r := t + [(w, 1)];
        assert Keys(r) == Keys(t) + [w];
        assert w !in Keys(t);
        r
  }

  /** Sorted by count, largest first. */
  predicate ByCountDesc(s: seq<(string, nat)>) {
    forall i, j :: 0 <= i < j < |s| ==> s[i].1 >= s[j].1
  }

  /** Inserts `x` after every entry whose count is at least its own (stable). */
  function InsertByCount(x: (string, nat), s: seq<(string, nat)>): (r: seq<(string, nat)>)
    requires ByCountDesc(s)
    ensures ByCountDesc(r)
    ensures multiset(r) == multiset(s) + multiset{x}
  {
    if s == [] then [x]
    else if s[0].1 < x.1 then [x] + s
    else
      var t := InsertByCount(x, s[1..]);
      assert multiset(t) == multiset(s[1..]) + multiset{x};
      assert forall y :: y in t ==> s[0].1 >= y.1 by {
        forall y | y in t ensures s[0].1 >= y.1 {
          assert y in multiset(t);
        }
      }
      assert s == [s[0]] + s[1..];
      [s[0]] + t
  }

  /** A stable sort by count, descending (what `most_common` orders by). */
  function SortByCount(s: seq<(string, nat)>): (r: seq<(string, nat)>)
    ensures ByCountDesc(r)
    ensures multiset(r) == multiset(s)
  {
    if s == [] then []
    else
      assert s == s[..|s| - 1] + [s[|s| - 1]];
      InsertByCount(s[|s| - 1], SortByCount(s[..|s| - 1]))
  }

  /** `Counter(words).most_common(n)`. */
  function MostCommon(words: seq<string>, n: nat): seq<(string, nat)> {
    Take(SortByCount(Tally(words)), n)
  }

  /** At most `n` pairs, most frequent first, each a word of the list with its number of occurrences. */
  lemma MostCommonSpec(words: seq<string>, n: nat)
    ensures |MostCommon(words, n)| <= n
    ensures ByCountDesc(MostCommon(words, n))
    ensures forall p :: p in MostCommon(words, n) ==> p.0 in words && p.1 == multiset(words)[p.0]
  {
    var tally := Tally(words);
    var sorted := SortByCount(tally);
    forall p | p in MostCommon(words, n) ensures p.0 in words && p.1 == multiset(words)[p.0] {
      assert p in sorted;
      assert p in multiset(sorted);
      assert p in tally;
      var k :| 0 <= k < |tally| && tally[k] == p;
      assert p.0 in Keys(tally);
    }
  }

  /** The tally has one entry per distinct word. */
  lemma TallySize(words: seq<string>)
    ensures |Tally(words)| == |Elems(words)|
  {
    var keys := Keys(Tally(words));
    assert Enumerates(keys, Elems(words));
    EnumerationSize(keys, Elems(words));
  }

  /** When there are at most `n` distinct words, every one of them is reported. */
  lemma MostCommonComplete(words: seq<string>, n: nat)
    requires |Elems(words)| <= n
    ensures forall w :: w in words ==> exists p :: p in MostCommon(words, n) && p.0 == w
  {
    var tally := Tally(words);
    var sorted := SortByCount(tally);
    TallySize(words);
    assert |sorted| == |tally| by {
      assert |multiset(sorted)| == |multiset(tally)|;
    }
    assert MostCommon(words, n) == sorted;
    forall w | w in words ensures exists p :: p in sorted && p.0 == w {
      assert w in Keys(tally);
      var k :| 0 <= k < |tally| && tally[k].0 == w;
      assert tally[k] in multiset(tally);
      assert tally[k] in sorted;
    }
  }

  /** A value at two positions of a list occurs at least twice in it. */
  lemma TwiceInList<T>(s: seq<T>, i: nat, j: nat)
    requires i < j < |s| && s[i] == s[j]
    ensures multiset(s)[s[i]] >= 2
  {
    assert s == s[..j] + s[j..];
    assert s[i] in s[..j];
    assert s[j..][0] == s[j];
  }

  /** In a tally with distinct words, no pair occurs twice. */
  lemma {:induction false} PairOnceInTally(t: seq<(string, nat)>, p: (string, nat))
    requires Distinct(Keys(t))
    ensures multiset(t)[p] <= 1
  {
    if t != [] {
      var init := t[..|t| - 1];
      assert t == init + [t[|t| - 1]];
      assert Keys(init) == Keys(t)[..|t| - 1];
      PairOnceInTally(init, p);
      if t[|t| - 1] == p {
        forall k | 0 <= k < |init| ensures init[k] != p {
          assert Keys(t)[k] != Keys(t)[|t| - 1];
        }
        assert p !in init;
      }
    }
  }

  /** The reported words are pairwise distinct. */
  lemma MostCommonDistinct(words: seq<string>, n: nat)
    ensures Distinct(Keys(MostCommon(words, n)))
  {
    var tally := Tally(words);
    var sorted := SortByCount(tally);
    var r := MostCommon(words, n);
    forall i, j | 0 <= i < j < |r| ensures r[i].0 != r[j].0 {
      if r[i].0 == r[j].0 {
        assert r[i] == sorted[i] && r[j] == sorted[j];
        assert sorted[i] in multiset(tally) && sorted[j] in multiset(tally);
        var a :| 0 <= a < |tally| && tally[a] == sorted[i];
        var b :| 0 <= b < |tally| && tally[b] == sorted[j];
        assert sorted[i] == sorted[j];
        TwiceInList(sorted, i, j);
        PairOnceInTally(tally, sorted[i]);
      }
    }
  }

  /**
   * A word that is not reported was crowded out: `n` pairs were reported,
   * and the word occurs no more often than the last of them.
   */
  lemma MostCommonTop(words: seq<string>, n: nat)
    ensures forall w :: w in words && w !in Keys(MostCommon(words, n)) ==>
      |MostCommon(words, n)| == n && (n > 0 ==> multiset(words)[w] <= MostCommon(words, n)[n - 1].1)
  {
    var tally := Tally(words);
    var sorted := SortByCount(tally);
    var r := MostCommon(words, n);
    forall w | w in words && w !in Keys(r)
      ensures |r| == n && (n > 0 ==> multiset(words)[w] <= r[n - 1].1)
    {
      assert w in Keys(tally);
      var a :| 0 <= a < |tally| && tally[a].0 == w;
      assert tally[a] in multiset(tally);
      assert tally[a] in multiset(sorted);
      var k :| 0 <= k < |sorted| && sorted[k] == tally[a];
      forall i | 0 <= i < |r| ensures sorted[i].0 != w {
        assert r[i] == sorted[i] && Keys(r)[i] == r[i].0;
      }
      assert |sorted| > n;
      if n > 0 {
        assert r[n - 1] == sorted[n - 1];
      }
    }
  }

  /** `calculate_keyword_density` without spaCy: `Counter(words).most_common(20)`. */
  function KeywordDensity(text: string): seq<(string, nat)> {
    MostCommon(DensityWords(text), 20)
  }

  /**
   * At most twenty pairs, most frequent first; each word is a kept word (four
   * or more lower-case letters, not a stop word) and its count is how often
   * it occurs among the kept words.
   */
  lemma KeywordDensitySpec(text: string)
    ensures |KeywordDensity(text)| <= 20
    ensures ByCountDesc(KeywordDensity(text))
    ensures forall p :: p in KeywordDensity(text) ==>
      IsLongLowerWord(p.0) && p.0 !in StopWords && p.1 == multiset(DensityWords(text))[p.0] && p.1 > 0
  {
    MostCommonSpec(DensityWords(text), 20);
  }

  /**
   * The top twenty: the reported words are distinct, and a kept word left
   * out occurs no more often than the twentieth word reported.
   */
  lemma KeywordDensityTop(text: string)
    ensures Distinct(Keys(KeywordDensity(text)))
    ensures forall w :: w in DensityWords(text) && w !in Keys(KeywordDensity(text)) ==>
      |KeywordDensity(text)| == 20 && multiset(DensityWords(text))[w] <= KeywordDensity(text)[19].1
  {
    MostCommonDistinct(DensityWords(text), 20);
    MostCommonTop(DensityWords(text), 20);
  }

  /** With at most twenty distinct kept words, every one of them is reported. */
  lemma KeywordDensityComplete(text: string)
    requires |Elems(DensityWords(text))| <= 20
    ensures forall w :: w in DensityWords(text) ==> exists p :: p in KeywordDensity(text) && p.0 == w
  {
    MostCommonComplete(DensityWords(text), 20);
  }

  // ---------------------------------------------------------------------
  // Experience requirements
  // ---------------------------------------------------------------------

  /** `list(set(requirements))` over the experience matches, year patterns first then domain patterns. */
  method ExtractExperienceRequirements(yearMatches: seq<string>, domainMatches: seq<string>) returns (r: seq<string>)
    ensures Enumerates(r, Elems(yearMatches) + Elems(domainMatches))
  {
    var requirements: seq<string> := [];
    for k := 0 to |yearMatches|
      invariant requirements == yearMatches[..k]
    {
      requirements := requirements + [yearMatches[k]];
    }
    assert yearMatches[..|yearMatches|] == yearMatches;
    for k := 0 to |domainMatches|
      invariant requirements == yearMatches + domainMatches[..k]
    {
      requirements := requirements + [domainMatches[k]];
    }
    assert domainMatches[..|domainMatches|] == domainMatches;
    ElemsAppend(yearMatches, domainMatches);
    r := SetToSeq(Elems(requirements));
  }

  // ---------------------------------------------------------------------
  // The parser
  // ---------------------------------------------------------------------

  /** Everything `extract_all` reports. */
  datatype JdAnalysis = JdAnalysis(
    jobTitle: string,
    technicalSkills: seq<string>,
    requiredSkills: seq<string>,
    preferredSkills: seq<string>,
    toolsTechnologies: seq<string>,
    verbatimPhrases: seq<string>,
    companyValues: seq<string>,
    structure: Structure,
    keywordDensity: seq<(string, nat)>,
    experienceRequirements: seq<string>)

  /** The categories `export_keyword_checklist` reports. */
  datatype KeywordChecklist = KeywordChecklist(
    requiredSkills: seq<string>,
    preferredSkills: seq<string>,
    technicalSkills: seq<string>,
    toolsTechnologies: seq<string>,
    companyValues: seq<string>,
    keyPhrases: seq<string>)

  /**
   * A parser over one job description.  Besides the text it holds what the
   * irregular patterns capture in it: for each title template, in order,
   * the group of its first match; and the text of every match of the
   * experience-years pattern and of the two domain patterns.
   */
  class JobDescriptionParser {
    const jdText: string
    const jdTextLower: string
    const titleCaptures: seq<Option<string>>
    const yearMatches: seq<string>
    const domainMatches: seq<string>

    predicate Valid() {
      jdTextLower == Lower(jdText)
    }

    constructor(jdText: string, titleCaptures: seq<Option<string>>, yearMatches: seq<string>, domainMatches: seq<string>)
      ensures Valid()
      ensures this.jdText == jdText && this.titleCaptures == titleCaptures
      ensures this.yearMatches == yearMatches && this.domainMatches == domainMatches
    {
      this.jdText := jdText;
      this.jdTextLower := Lower(jdText);
      this.titleCaptures := titleCaptures;
      this.yearMatches := yearMatches;
      this.domainMatches := domainMatches;
    }

    /** `extract_job_title`: the first accepted capture, else the first title-like fragment, else the sentinel. */
    method ExtractJobTitle() returns (title: string)
      ensures title == JobTitle(titleCaptures, jdText)
      ensures WordCount(title) <= 6
    {
      JobTitleWords(titleCaptures, jdText);
      var captured := FindCapturedTitle(titleCaptures);
      if captured.Some? {
        return captured.value;
      }
      var fallback := FindFallbackTitle(jdText);
      if fallback.Some? {
        return fallback.value;
      }
      return UnknownTitle;
    }

    /** `extract_technical_skills`: the distinct matched spans, sorted. */
    method ExtractTechnicalSkills() returns (r: seq<string>)
      ensures StrictlySorted(r) && Elems(r) == TechnicalSkillSet(jdText)
    {
      var skills: set<string> := {};
      for c := 0 to |SkillPatterns|
        invariant skills == Elems(MatchesOfPatterns(jdText, SkillPatterns[..c]))
      {
        var matches := SkillMatchesFrom(jdText, SkillPatterns[c], 0);
        skills := AddAll(skills, matches);
        MatchesOfPatternsStep(jdText, SkillPatterns, c);
      }
      assert SkillPatterns[..|SkillPatterns|] == SkillPatterns;
      var listed := SetToSeq(skills);
      r := SortedUnique(listed);
    }

    /** `extract_required_vs_preferred`. */
    method ExtractRequiredVsPreferred() returns (r: RequiredPreferred)
      requires Valid()
      ensures r == RequiredVsPreferred(jdText)
    {
      var requiredSection := ConcatWindows(jdText, jdTextLower, RequiredMarkers);
      var preferredSection := ConcatWindows(jdText, jdTextLower, PreferredMarkers);
      r := RequiredPreferred(ExtractBullets(requiredSection), ExtractBullets(preferredSection));
    }

    /** `extract_all`: every extractor, the skills extractor twice. */
    method ExtractAll() returns (a: JdAnalysis)
      requires Valid()
      ensures a.jobTitle == JobTitle(titleCaptures, jdText)
      ensures StrictlySorted(a.technicalSkills) && Elems(a.technicalSkills) == TechnicalSkillSet(jdText)
      ensures a.toolsTechnologies == a.technicalSkills
      ensures a.requiredSkills == RequiredVsPreferred(jdText).required
      ensures a.preferredSkills == RequiredVsPreferred(jdText).preferred
      ensures a.verbatimPhrases == VerbatimPhrases(jdText, 10, 30)
      ensures Enumerates(a.companyValues, CompanyValues(jdText))
      ensures a.structure == StructureOf(jdText)
      ensures a.keywordDensity == KeywordDensity(jdText)
      ensures Enumerates(a.experienceRequirements, Elems(yearMatches) + Elems(domainMatches))
    {
      var requiredPreferred := ExtractRequiredVsPreferred();
      var title := ExtractJobTitle();
      var skills := ExtractTechnicalSkills();
      var tools := ExtractTechnicalSkills();
      StrictlySortedUnique(skills, tools);
      var phrases := ExtractVerbatimPhrases(jdText, 10, 30);
      var values := ExtractCompanyValues(jdText, jdTextLower);
      var structure := AnalyzeStructure(jdText);
      var experience := ExtractExperienceRequirements(yearMatches, domainMatches);
      a := JdAnalysis(title, skills, requiredPreferred.required, requiredPreferred.preferred, tools,
                      phrases, values, structure, KeywordDensity(jdText), experience);
    }

    /**
     * `export_keyword_checklist`: the lists of one `extract_all` run by
     * category, with only the first five phrases.
     */
    method ExportKeywordChecklist() returns (c: KeywordChecklist)
      requires Valid()
      ensures c.requiredSkills == RequiredVsPreferred(jdText).required
      ensures c.preferredSkills == RequiredVsPreferred(jdText).preferred
      ensures StrictlySorted(c.technicalSkills) && Elems(c.technicalSkills) == TechnicalSkillSet(jdText)
      ensures c.toolsTechnologies == c.technicalSkills
      ensures Enumerates(c.companyValues, CompanyValues(jdText))
      ensures c.keyPhrases == Take(VerbatimPhrases(jdText, 10, 30), 5)
    {
      var a := ExtractAll();
      c := KeywordChecklist(a.requiredSkills, a.preferredSkills, a.technicalSkills, a.toolsTechnologies,
                            a.companyValues, Take(a.verbatimPhrases, 5));
    }
  }
}
