/**
 * `src/checkers/quality_validator.py`: best-practice checks on a CV —
 * achievement bullets without a number, whether the CV's title matches the
 * target title, and which required keywords it mentions.
 *
 * Loading the CV is input: the validator is built from the loaded document
 * (`None` when the path is not a `.docx`) and the text of the file.
 */
module QualityValidation {
  import opened Wrappers
  import opened TextUtil
  import opened Patterns
  import opened Docx

  // ---------------------------------------------------------------------
  // Quantifiable achievements
  // ---------------------------------------------------------------------

  const ActionVerbs: seq<string> := ["led", "managed", "increased", "decreased", "improved", "reduced", "achieved", "delivered", "created", "built"]

  /** The words `\d+\s*(?:percent|million|thousand|k|m)` accepts after a number. */
  const Units: seq<string> := ["percent", "million", "thousand", "k", "m"]

  const MetricAdvice := "Consider adding quantifiable metrics: "

  /**
   * The metric pattern `\d+[%£$KM]|\d+%|\d+\s*(?:percent|million|thousand|k|m)`,
   * case-insensitive, matches at offset `i`.  Backtracking into the digit
   * run cannot help (a shorter run is followed by a digit), nor into the
   * whitespace run (a shorter run is followed by a space), so both runs
   * are taken whole.
   */
  predicate MetricAt(b: string, i: nat) {
    i < |b| && IsDigit(b[i]) &&
    var j := i + SpanDigits(b[i..]);
    (j < |b| && LowerChar(b[j]) in "%£$km") ||
    (var u := j + SpanSpace(b[j..]);
     exists k :: 0 <= k < |Units| && Units[k] <= Lower(b[u..]))
  }

  /** `re.search(number_pattern, bullet, re.IGNORECASE)` succeeds. */
  predicate HasMetric(b: string) {
    exists i | 0 <= i < |b| :: MetricAt(b, i)
  }

  /** `any(bullet.lower().startswith(verb) for verb in action_verbs)`. */
  predicate StartsWithActionVerb(b: string) {
    exists k | 0 <= k < |ActionVerbs| :: ActionVerbs[k] <= Lower(b)
  }

  /** A bullet that gets a warning: an achievement without a number. */
  predicate Flagged(b: string) {
    !HasMetric(b) && StartsWithActionVerb(b)
  }

  /** The warning for a bullet: the advice, the first 50 characters of the bullet, and `"..."`. */
  function Advice(b: string): (r: string)
    ensures |r| == |MetricAdvice| + Min(50, |b|) + 3
    ensures MetricAdvice <= r
    ensures r[|MetricAdvice|..|MetricAdvice| + Min(50, |b|)] == b[..Min(50, |b|)]
    ensures r[|r| - 3..] == "..."
  {
    MetricAdvice + b[..Min(50, |b|)] + "..."
  }

  /** The warnings for a list of bullets, in bullet order. */
  function Warned(bullets: seq<string>): (r: seq<string>)
    ensures |r| <= |bullets|
  {
    if bullets == [] then []
    else
      var b := bullets[|bullets| - 1];
      Warned(bullets[..|bullets| - 1]) + (if Flagged(b) then [Advice(b)] else [])
  }

  /** There is a warning for a bullet exactly when the bullet is flagged. */
  lemma {:induction false} WarnedSpec(bullets: seq<string>)
    ensures forall w :: w in Warned(bullets) ==> exists b :: b in bullets && Flagged(b) && w == Advice(b)
    ensures forall b :: b in bullets && Flagged(b) ==> Advice(b) in Warned(bullets)
  {
    if bullets != [] {
      var init := bullets[..|bullets| - 1];
      WarnedSpec(init);
      assert bullets == init + [bullets[|bullets| - 1]];
    }
  }

  /** The bullets of the CV text: the `[•\-\*]` groups, not stripped. */
  function Bullets(text: string): seq<string> {
    FindGroupsFrom(text, Glyph, 0)
  }

  /** `check_quantifiable_achievements`: the first five warnings. */
  function QuantifiableWarnings(text: string): seq<string> {
    Take(Warned(Bullets(text)), 5)
  }

  /**
   * At most five warnings, each for a flagged bullet of the text; when
   * fewer than five are returned, every flagged bullet has its warning.
   */
  lemma QuantifiableWarningsSpec(text: string)
    ensures |QuantifiableWarnings(text)| <= 5
    ensures forall w :: w in QuantifiableWarnings(text) ==> exists b :: b in Bullets(text) && Flagged(b) && w == Advice(b)
    ensures |QuantifiableWarnings(text)| < 5 ==>
      forall b :: b in Bullets(text) && Flagged(b) ==> Advice(b) in QuantifiableWarnings(text)
  {
    WarnedSpec(Bullets(text));
    var all := Warned(Bullets(text));
    var r := QuantifiableWarnings(text);
    forall w | w in r ensures w in all {
      var k :| 0 <= k < |r| && r[k] == w;
      assert all[k] == w;
    }
  }

  /**
   * A digit, one space and a word starting with `k` or `m` always count as
   * a metric: in `"Led 3 key teams"` the pattern reads `3 k` as "3
   * thousand".
   */
  lemma DigitThenKWordIsMetric(b: string, i: nat)
    requires i + 2 < |b| && IsDigit(b[i]) && b[i + 1] == ' '
    requires LowerChar(b[i + 2]) == 'k' || LowerChar(b[i + 2]) == 'm'
    ensures HasMetric(b)
  {
    var s := b[i..];
    assert s[1..][0] == ' ';
    assert SpanDigits(s) == 1;
    var j := i + 1;
    assert b[j..][1..][0] == b[i + 2];
    assert SpanSpace(b[j..]) == 1;
    var u := j + 1;
    var w := Lower(b[u..]);
    assert w[0] == LowerChar(b[i + 2]);
    if LowerChar(b[i + 2]) == 'k' {
      assert Units[3] <= w;
    } else {
      assert Units[4] <= w;
    }
    assert MetricAt(b, i);
  }

  // ---------------------------------------------------------------------
  // Title match
  // ---------------------------------------------------------------------

  /** `set(s.lower().split())`. */
  function WordSet(s: string): set<string> {
    Elems(SplitWs(Lower(s)))
  }

  /** `similarity >= 0.5`: at least half of the target's words appear in the CV title; an empty target never matches. */
  function TitleMatches(target: string, cvTitle: string): (r: bool)
    ensures r ==> WordSet(target) != {} && WordSet(target) * WordSet(cvTitle) != {}
    ensures WordSet(target) != {} && WordSet(target) <= WordSet(cvTitle) ==> r
  {
    var t := WordSet(target);
    assert t <= WordSet(cvTitle) ==> t * WordSet(cvTitle) == t;
    t != {} && 2 * |t * WordSet(cvTitle)| >= |t|
  }

  lemma LowerChar2(c: char)
    ensures LowerChar(LowerChar(c)) == LowerChar(c)
  {
  }

  lemma LowerTwice(s: string)
    ensures Lower(Lower(s)) == Lower(s)
  {
    forall i | 0 <= i < |s| ensures Lower(Lower(s))[i] == Lower(s)[i] {
      LowerChar2(s[i]);
    }
  }

  /** The match ignores case on both sides. */
  lemma TitleMatchIgnoresCase(target: string, cvTitle: string)
    ensures TitleMatches(target, cvTitle) == TitleMatches(Lower(target), Lower(cvTitle))
  {
    LowerTwice(target);
    LowerTwice(cvTitle);
  }

  // ---------------------------------------------------------------------
  // The CV title
  // ---------------------------------------------------------------------

  /** A paragraph `_extract_cv_title` takes as the title: its first run is bold or larger than 12 pt. */
  predicate IsTitleParagraph(p: Paragraph) {
    p.runs != [] && (p.runs[0].bold || (p.runs[0].halfPoints.Some? && p.runs[0].halfPoints.value > 24))
  }

  /** `cv_text.split('\n')[0].strip()`. */
  function FirstLine(cvText: string): string {
    Strip(SplitOn(cvText, '\n')[0])
  }

  /**
   * `_extract_cv_title`: the stripped text of the first title paragraph
   * among the first five, else the stripped first line of the text.
   */
  function CvTitle(doc: Option<Document>, cvText: string): (r: string)
    ensures doc.Some? ==>
      forall i ::
        (0 <= i < Min(5, |doc.value.paragraphs|) && IsTitleParagraph(doc.value.paragraphs[i]) &&
         (forall j :: 0 <= j < i ==> !IsTitleParagraph(doc.value.paragraphs[j]))) ==>
        r == Strip(ParaText(doc.value.paragraphs[i]))
    ensures (doc.None? || forall i :: 0 <= i < Min(5, |doc.value.paragraphs|) ==> !IsTitleParagraph(doc.value.paragraphs[i])) ==>
      r == FirstLine(cvText)
  {
    if doc.None? then FirstLine(cvText)
    else
      var paras := doc.value.paragraphs;
      var lead := paras[..Min(5, |paras|)];
      FirstWhereIsFirst(lead, IsTitleParagraph);
      assert forall i :: 0 <= i < |lead| ==> lead[i] == paras[i];
      match FirstWhere(lead, IsTitleParagraph, 0)
      case Some(i) => Strip(ParaText(paras[i]))
      case None => FirstLine(cvText)
  }

  // ---------------------------------------------------------------------
  // Keyword presence
  // ---------------------------------------------------------------------

  /** `re.search(r'\b' + re.escape(keyword.lower()) + r'\b', cv_text_lower)`. */
  predicate KeywordFound(cvLower: string, kw: string) {
    WholeWord(cvLower, Lower(kw))
  }

  /** The dict `check_keyword_density` returns. */
  datatype KeywordReport = KeywordReport(present: seq<string>, missing: seq<string>, coverage: real)

  function KeywordReportOf(cvLower: string, kws: seq<string>): KeywordReport {
    var found := (kw: string) => KeywordFound(cvLower, kw);
    var present := Filter(kws, found);
    KeywordReport(present, Reject(kws, found), Percentage(|present|, |kws|))
  }

  /** Every keyword is present or missing, and not both. */
  lemma KeywordReportMembers(cvLower: string, kws: seq<string>)
    ensures forall kw :: kw in KeywordReportOf(cvLower, kws).present <==> kw in kws && KeywordFound(cvLower, kw)
    ensures forall kw :: kw in KeywordReportOf(cvLower, kws).missing <==> kw in kws && !KeywordFound(cvLower, kw)
  {
    FilterMembers(kws, (kw: string) => KeywordFound(cvLower, kw));
  }

  /** The two lists split the keywords, duplicates kept and in input order. */
  lemma KeywordReportSplit(cvLower: string, kws: seq<string>)
    ensures multiset(KeywordReportOf(cvLower, kws).present) + multiset(KeywordReportOf(cvLower, kws).missing) == multiset(kws)
    ensures IsSubsequence(KeywordReportOf(cvLower, kws).present, kws)
    ensures IsSubsequence(KeywordReportOf(cvLower, kws).missing, kws)
  {
    var found := (kw: string) => KeywordFound(cvLower, kw);
    FilterRejectSplit(kws, found);
    FilterRejectInOrder(kws, found);
  }

  /** The coverage is the present share in percent, 0 for no keywords. */
  lemma KeywordCoverage(cvLower: string, kws: seq<string>)
    ensures kws == [] ==> KeywordReportOf(cvLower, kws).coverage == 0.0
    ensures kws != [] ==>
      KeywordReportOf(cvLower, kws).coverage * (|kws| as real) == (|KeywordReportOf(cvLower, kws).present| as real) * 100.0
    ensures 0.0 <= KeywordReportOf(cvLower, kws).coverage <= 100.0
  {
  }

  // ---------------------------------------------------------------------
  // The validator
  // ---------------------------------------------------------------------

  /** The dict `validate_all` returns; `None` where the argument was not given. */
  datatype Validation = Validation(quantifiableWarnings: seq<string>, titleMatch: Option<bool>, keywordCoverage: Option<KeywordReport>)

  class QualityValidator {
    const doc: Option<Document>
    const cvText: string
    const cvTextLower: string
    var warnings: seq<string>  // set up empty and never used by the checks

    /** The validator over a loaded document (`None` for a non-`.docx` path) and the text read from the file. */
    constructor(doc: Option<Document>, fileText: string)
      ensures this.doc == doc
      ensures doc.Some? ==> cvText == Join(ParagraphTexts(doc.value.paragraphs), "\n")
      ensures doc.None? ==> cvText == fileText
      ensures cvTextLower == Lower(cvText) && warnings == []
    {
      this.doc := doc;
      var text := fileText;
      if doc.Some? {
        text := ExtractDocxText(doc.value);
      }
      cvText := text;
      cvTextLower := Lower(text);
      warnings := [];
    }

    method CheckQuantifiableAchievements() returns (r: seq<string>)
      ensures r == QuantifiableWarnings(cvText)
    {
      var bullets := Bullets(cvText);
      var found: seq<string> := [];
      for i := 0 to |bullets|
        invariant found == Warned(bullets[..i])
      {
        var b := bullets[i];
        assert bullets[..i + 1] == bullets[..i] + [b];
        if !HasMetric(b) && StartsWithActionVerb(b) {
          found := found + [Advice(b)];
        }
      }
      assert bullets[..|bullets|] == bullets;
      r := Take(found, 5);
    }

    method ExtractCvTitle() returns (title: string)
      ensures title == CvTitle(doc, cvText)
    {
      if doc.Some? {
        var paras := doc.value.paragraphs;
        var n := Min(5, |paras|);
        for i := 0 to n
          invariant forall j :: 0 <= j < i ==> !IsTitleParagraph(paras[j])
        {
          if paras[i].runs != [] {
            var firstRun := paras[i].runs[0];
            if firstRun.bold || (firstRun.halfPoints.Some? && firstRun.halfPoints.value > 24) {
              return Strip(ParaText(paras[i]));
            }
          }
        }
      }
      title := FirstLine(cvText);
    }

    method CheckJobTitleMatch(targetTitle: string) returns (r: bool)
      ensures r == TitleMatches(targetTitle, CvTitle(doc, cvText))
    {
      var cvTitle := ExtractCvTitle();
      var targetWords := WordSet(targetTitle);
      var cvWords := WordSet(cvTitle);
      var overlap := |targetWords * cvWords|;
      r := targetWords != {} && 2 * overlap >= |targetWords|;
    }

    method CheckKeywordDensity(requiredKeywords: seq<string>) returns (r: KeywordReport)
      ensures r == KeywordReportOf(cvTextLower, requiredKeywords)
    {
      var present: seq<string> := [];
      var missing: seq<string> := [];
      ghost var found := (kw: string) => KeywordFound(cvTextLower, kw);
      for i := 0 to |requiredKeywords|
        invariant present == Filter(requiredKeywords[..i], found)
        invariant missing == Reject(requiredKeywords[..i], found)
      {
        var keyword := requiredKeywords[i];
        assert requiredKeywords[..i + 1] == requiredKeywords[..i] + [keyword];
        if WholeWord(cvTextLower, Lower(keyword)) {
          present := present + [keyword];
        } else {
          missing := missing + [keyword];
        }
      }
      assert requiredKeywords[..|requiredKeywords|] == requiredKeywords;
      r := KeywordReport(present, missing, Percentage(|present|, |requiredKeywords|));
    }

    /** `validate_all`: the title and keyword checks run only for a non-empty argument. */
    method ValidateAll(targetTitle: Option<string>, requiredKeywords: Option<seq<string>>) returns (v: Validation)
      ensures v.quantifiableWarnings == QuantifiableWarnings(cvText)
      ensures v.titleMatch.Some? <==> targetTitle.Some? && targetTitle.value != ""
      ensures v.titleMatch.Some? ==> v.titleMatch.value == TitleMatches(targetTitle.value, CvTitle(doc, cvText))
      ensures v.keywordCoverage.Some? <==> requiredKeywords.Some? && requiredKeywords.value != []
      ensures v.keywordCoverage.Some? ==> v.keywordCoverage.value == KeywordReportOf(cvTextLower, requiredKeywords.value)
    {
      var warnings := CheckQuantifiableAchievements();
      v := Validation(warnings, None, None);
      if targetTitle.Some? && targetTitle.value != "" {
        var m := CheckJobTitleMatch(targetTitle.value);
        v := v.(titleMatch := Some(m));
      }
      if requiredKeywords.Some? && requiredKeywords.value != [] {
        var k := CheckKeywordDensity(requiredKeywords.value);
        v := v.(keywordCoverage := Some(k));
      }
    }
  }
}
