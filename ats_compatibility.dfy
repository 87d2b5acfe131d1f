/**
 * The ATS compatibility scorer of `src/checkers/ats_compatibility.py`.
 *
 * A checker holds the CV path, the formatting rules and the loaded
 * document (only for `.docx` paths).  Each check appends its findings to
 * the `issues` list and returns minus the points it deducts;
 * `CalculateTotalScore` runs the six checks and clamps the score at 0.
 * What each check appends is given by a function of the path, the rules
 * and the document, and the properties of the scoring are proved on
 * those functions.
 */
module AtsCompatibility {
  import opened Wrappers
  import opened TextUtil
  import opened Docx

  datatype Severity = High | Medium | Low

  /** One `{severity, issue, deduction}` record. */
  datatype Issue = Issue(severity: Severity, text: string, deduction: nat)

  /** `rules['formatting']['fonts']`: allowed names and the optional size range in points. */
  datatype FontRules = FontRules(allowed: seq<string>, minSize: Option<int>, maxSize: Option<int>)

  /** `rules['scoring']`, which the checks never read. */
  datatype Scoring = Scoring(fileFormat: int, layout: int, font: int, graphics: int, headers: int)

  /** The rules file: allowed and prohibited extensions, font rules and the scoring block. */
  datatype Rules = Rules(allowedFormats: seq<string>, prohibitedFormats: seq<string>, fonts: FontRules, scoring: Scoring)

  /** The rules used when the rules file is missing. */
  const DefaultRules := Rules(
    [".docx"], [".pdf", ".doc"],
    FontRules(["Calibri", "Arial", "Times New Roman"], Some(10), Some(12)),
    Scoring(30, 25, 10, 20, 15))

  /** `SCORING_WEIGHTS`: the deductions the checks use, whatever the rules say. */
  const FileFormatWeight: nat := 30
  const LayoutWeight: nat := 25
  const FontWeight: nat := 10
  const GraphicsWeight: nat := 20
  const HeadersFootersWeight: nat := 15

  const TableDeduction: nat := 15
  const ColumnDeduction: nat := 10
  const FontSizeDeduction: nat := 5
  const HeaderDeduction: nat := 8
  const FooterDeduction: nat := 7
  const SpecialCharDeduction: nat := 5

  /** The glyphs reported as unusual bullets, in the order they are reported. */
  const UnusualBullets: seq<char> := ['→', '►', '▪', '▫', '■', '□', '◆', '◇']

  // ----- os.path.splitext -----

  /** The last index of `c` in `s`. */
  function LastIndexOf(s: string, c: char): (r: Option<nat>)
    ensures r.None? <==> c !in s
    ensures r.Some? ==> r.value < |s| && s[r.value] == c && forall j :: r.value < j < |s| ==> s[j] != c
  {
    if s == [] then None
    else if s[|s| - 1] == c then Some(|s| - 1)
    else
      var r := LastIndexOf(s[..|s| - 1], c);
      assert s == s[..|s| - 1] + [s[|s| - 1]];
      r
  }

  /** The file name part of a POSIX path: everything after the last '/'. */
  function BaseName(path: string): (base: string)
    ensures '/' !in base
    ensures |base| <= |path| && base == path[|path| - |base|..]
  {
    var k := LastIndexOf(path, '/');
    if k.None? then path else path[k.value + 1..]
  }

  /**
   * The extension `os.path.splitext` returns for a POSIX path: from the last
   * dot of the file name on, unless only dots come before that dot in the
   * file name (so hidden files have no extension).
   */
  function Extension(path: string): (ext: string)
    ensures ext == [] || ext[0] == '.'
    ensures '/' !in ext
  {
    var base := BaseName(path);
    var d := LastIndexOf(base, '.');
    if d.Some? && exists j :: 0 <= j < d.value && base[j] != '.' then base[d.value..] else ""
  }

  /** The extension is the tail of the path. */
  lemma ExtensionIsSuffix(path: string)
    ensures |Extension(path)| <= |path| && Extension(path) == path[|path| - |Extension(path)|..]
  {
    if Extension(path) != "" {
      ExtensionFromDot(path);
    }
  }

  lemma ExtensionFromDot(path: string)
    requires Extension(path) != ""
    ensures Extension(path) == path[|path| - |Extension(path)|..]
  {
    var base := BaseName(path);
    var d := LastIndexOf(base, '.');
    assert d.Some? && Extension(path) == base[d.value..];
    TailOfTail(path, base, d.value);
  }

  /** A tail of a tail of `s` is a tail of `s`. */
  lemma TailOfTail(s: string, t: string, k: nat)
    requires |t| <= |s| && t == s[|s| - |t|..] && k <= |t|
    ensures t[k..] == s[|s| - |t[k..]|..]
  {
  }

  lemma ExtensionOfDocxName()
    ensures Extension("cv.docx") == ".docx"
    ensures Lower(Extension("cv.docx")) == ".docx"
  {
    ExtensionOfCv();
    LowerDocx();
  }

  lemma LowerDocx()
    ensures Lower(".docx") == ".docx"
  {
  }

  lemma ExtensionOfCv()
    ensures Extension("cv.docx") == ".docx"
  {
    var s := "cv.docx";
    assert '/' !in s;
    assert BaseName(s) == s;
    var d := LastIndexOf(s, '.');
    assert s[2] == '.';
    assert d == Some(2);
    assert s[0] != '.';
    assert s[2..] == ".docx";
  }

  lemma HiddenFileHasNoExtension()
    ensures Extension(".docx") == ""
  {
    var s := ".docx";
    assert '/' !in s;
    assert BaseName(s) == s;
    assert s[0] == '.';
    assert LastIndexOf(s, '.') == Some(0);
  }

  // ----- deductions -----

  function SumDeductions(issues: seq<Issue>): nat {
    if issues == [] then 0 else SumDeductions(issues[..|issues| - 1]) + issues[|issues| - 1].deduction
  }

  lemma {:induction false} SumDeductionsAppend(a: seq<Issue>, b: seq<Issue>)
    ensures SumDeductions(a + b) == SumDeductions(a) + SumDeductions(b)
    decreases |b|
  {
    if b == [] {
      assert a + b == a;
    } else {
      assert (a + b)[..|a + b| - 1] == a + b[..|b| - 1];
      SumDeductionsAppend(a, b[..|b| - 1]);
    }
  }

  /** Every issue any check records takes points off. */
  predicate AllDeduct(issues: seq<Issue>) {
    forall i :: 0 <= i < |issues| ==> issues[i].deduction > 0
  }

  lemma AllDeductAppend(a: seq<Issue>, b: seq<Issue>)
    requires AllDeduct(a) && AllDeduct(b)
    ensures AllDeduct(a + b)
  {
    forall i | 0 <= i < |a + b| ensures (a + b)[i].deduction > 0 {
      if i >= |a| {
        assert (a + b)[i] == b[i - |a|];
      }
    }
  }

  /** With positive deductions, nothing is deducted exactly when nothing was recorded. */
  lemma NoDeductionMeansNoIssues(issues: seq<Issue>)
    requires AllDeduct(issues)
    ensures SumDeductions(issues) == 0 <==> issues == []
  {
    if issues != [] {
      assert issues[|issues| - 1].deduction > 0;
    }
  }

  lemma AppendAssoc<T>(a: seq<T>, b: seq<T>, c: seq<T>)
    ensures (a + b) + c == a + (b + c)
  {
  }

  lemma AppendThree<T>(o: seq<T>, a: seq<T>, b: seq<T>, c: seq<T>)
    ensures o + a + b + c == o + (a + (b + c))
  {
  }

  lemma AppendSix<T>(s: seq<T>, a: seq<T>, b: seq<T>, c: seq<T>, d: seq<T>, e: seq<T>, g: seq<T>)
    ensures s + a + b + c + d + e + g == s + (a + b + c + d + e + g)
  {
  }

  /** `[x]` when `b` holds, else nothing. */
  function IssueIf(b: bool, x: Issue): seq<Issue> {
    if b then [x] else []
  }

  lemma IssueIfDeduction(b: bool, x: Issue)
    ensures SumDeductions(IssueIf(b, x)) == if b then x.deduction else 0
    ensures x.deduction > 0 ==> AllDeduct(IssueIf(b, x))
  {
    assert [x][..0] == [];
  }

  lemma IssuePairDeduction(b1: bool, x1: Issue, b2: bool, x2: Issue)
    ensures SumDeductions(IssueIf(b1, x1) + IssueIf(b2, x2)) ==
      (if b1 then x1.deduction else 0) + (if b2 then x2.deduction else 0)
  {
    IssueIfDeduction(b1, x1);
    IssueIfDeduction(b2, x2);
    SumDeductionsAppend(IssueIf(b1, x1), IssueIf(b2, x2));
  }

  // ----- check_file_format -----

  function FormatIssue(ext: string, allowed: seq<string>): Issue {
    Issue(High, "File format is " + ext + ", should be " + Join(allowed, ", "), FileFormatWeight)
  }

  /** The issue `check_file_format` appends, if any. */
  function FormatIssues(cvPath: string, rules: Rules): (r: seq<Issue>)
    ensures r == [] <==> Lower(Extension(cvPath)) in rules.allowedFormats
  {
    var ext := Extension(cvPath);
    IssueIf(Lower(ext) !in rules.allowedFormats, FormatIssue(ext, rules.allowedFormats))
  }

  /** The points `check_file_format` deducts: 30 for an extension outside the allowed list. */
  function FormatDeduction(cvPath: string, rules: Rules): nat {
    if Lower(Extension(cvPath)) in rules.allowedFormats then 0 else 30
  }

  lemma FormatIssuesDeduction(cvPath: string, rules: Rules)
    ensures SumDeductions(FormatIssues(cvPath, rules)) == FormatDeduction(cvPath, rules)
    ensures AllDeduct(FormatIssues(cvPath, rules))
  {
    IssueIfDeduction(Lower(Extension(cvPath)) !in rules.allowedFormats, FormatIssue(Extension(cvPath), rules.allowedFormats));
  }

  // ----- check_layout -----

  predicate IsMultiColumn(s: Section) {
    s.columns.Some? && s.columns.value > 1
  }

  predicate HasMultiColumnSection(doc: Document) {
    exists i :: 0 <= i < |doc.sections| && IsMultiColumn(doc.sections[i])
  }

  function TableIssue(count: nat): Issue {
    Issue(High, "Found " + NatToString(count) + " table(s) - ATS may not parse correctly", TableDeduction)
  }

  const ColumnIssue := Issue(High, "Multi-column layout detected", ColumnDeduction)

  /** The issues `check_layout` appends: one for tables, one for the first multi-column section. */
  function LayoutIssues(doc: Option<Document>): (r: seq<Issue>)
    ensures doc.None? ==> r == []
  {
    if doc.None? then []
    else IssueIf(doc.value.tableCount > 0, TableIssue(doc.value.tableCount)) +
         IssueIf(HasMultiColumnSection(doc.value), ColumnIssue)
  }

  /** What `check_layout` records and deducts for a loaded document. */
  lemma LayoutIssuesSpec(doc: Document)
    ensures TableIssue(doc.tableCount) in LayoutIssues(Some(doc)) <==> doc.tableCount > 0
    ensures ColumnIssue in LayoutIssues(Some(doc)) <==> HasMultiColumnSection(doc)
    ensures |LayoutIssues(Some(doc))| <= 2
  {
  }

  /** The points `check_layout` deducts: 15 for any table, 10 for a multi-column section. */
  function LayoutDeduction(doc: Option<Document>): nat {
    if doc.None? then 0
    else (if doc.value.tableCount > 0 then 15 else 0) + (if HasMultiColumnSection(doc.value) then 10 else 0)
  }

  lemma LayoutIssuesDeduction(doc: Option<Document>)
    ensures SumDeductions(LayoutIssues(doc)) == LayoutDeduction(doc)
    ensures AllDeduct(LayoutIssues(doc))
  {
    if doc.Some? {
      var d := doc.value;
      IssuePairDeduction(d.tableCount > 0, TableIssue(d.tableCount), HasMultiColumnSection(d), ColumnIssue);
      IssueIfDeduction(d.tableCount > 0, TableIssue(d.tableCount));
      IssueIfDeduction(HasMultiColumnSection(d), ColumnIssue);
      AllDeductAppend(IssueIf(d.tableCount > 0, TableIssue(d.tableCount)), IssueIf(HasMultiColumnSection(d), ColumnIssue));
    }
  }

  // ----- check_fonts -----

  /** All runs of the paragraphs, in document order. */
  function AllRuns(paras: seq<Paragraph>): seq<Run> {
    if paras == [] then [] else AllRuns(paras[..|paras| - 1]) + paras[|paras| - 1].runs
  }

  /** `size_range.get('min', 10)` and `size_range.get('max', 12)`. */
  function MinSize(rules: Rules): int {
    if rules.fonts.minSize.Some? then rules.fonts.minSize.value else 10
  }

  function MaxSize(rules: Rules): int {
    if rules.fonts.maxSize.Some? then rules.fonts.maxSize.value else 12
  }

  /** A run whose truthy font name is not allowed. */
  predicate NonStandardRun(run: Run, allowed: seq<string>) {
    HasFontName(run) && run.font.value !in allowed
  }

  /** A run with a non-zero size outside `[minPt, maxPt]` points. */
  predicate BadSizeRun(run: Run, minPt: int, maxPt: int) {
    run.halfPoints.Some? && run.halfPoints.value > 0 &&
    (run.halfPoints.value < 2 * minPt || run.halfPoints.value > 2 * maxPt)
  }

  /** The `non_standard_fonts` set. */
  function NonStandardFonts(runs: seq<Run>, allowed: seq<string>): set<string> {
    set k | 0 <= k < |runs| && NonStandardRun(runs[k], allowed) :: runs[k].font.value
  }

  /** The `invalid_sizes` list: the offending sizes in run order, repeats included. */
  function BadSizes(runs: seq<Run>, minPt: int, maxPt: int): seq<nat> {
    if runs == [] then []
    else
      var last := runs[|runs| - 1];
      BadSizes(runs[..|runs| - 1], minPt, maxPt) + (if BadSizeRun(last, minPt, maxPt) then [last.halfPoints.value] else [])
  }

  /** `invalid_sizes` lists exactly the sizes of the offending runs. */
  lemma {:induction false} BadSizesSpec(runs: seq<Run>, minPt: int, maxPt: int)
    ensures forall h :: h in BadSizes(runs, minPt, maxPt) <==>
      exists k :: 0 <= k < |runs| && BadSizeRun(runs[k], minPt, maxPt) && runs[k].halfPoints.value == h
  {
    if runs != [] {
      var pre := runs[..|runs| - 1];
      BadSizesSpec(pre, minPt, maxPt);
      assert forall k :: 0 <= k < |pre| ==> pre[k] == runs[k];
    }
  }

  /** `str(size.pt)` for a size of `h` half-points. */
  function SizeText(h: nat): (r: string)
    ensures r != []
  {
    NatToString(h / 2) + (if h % 2 == 0 then ".0" else ".5")
  }

  function SizeTexts(hs: seq<nat>): (r: seq<string>)
    ensures |r| == |hs|
  {
    seq(|hs|, i requires 0 <= i < |hs| => SizeText(hs[i]))
  }

  /** The non-standard font names of a document. */
  function FontNames(rules: Rules, doc: Document): set<string> {
    NonStandardFonts(AllRuns(doc.paragraphs), rules.fonts.allowed)
  }

  /** The distinct out-of-range sizes of a document, in half-points. */
  function FontSizes(rules: Rules, doc: Document): set<nat> {
    Elems(BadSizes(AllRuns(doc.paragraphs), MinSize(rules), MaxSize(rules)))
  }

  function FontNameIssue(fontOrder: seq<string>): Issue {
    Issue(Medium, "Non-standard fonts detected: " + Join(fontOrder, ", "), FontWeight)
  }

  function FontSizeIssue(rules: Rules, sizeOrder: seq<nat>): Issue {
    Issue(Low, "Font sizes outside recommended range (" + IntToString(MinSize(rules)) + "-" +
      IntToString(MaxSize(rules)) + "pt): " + Join(SizeTexts(sizeOrder), ", "), FontSizeDeduction)
  }

  /** `fontOrder` and `sizeOrder` list the offending fonts and sizes of the document once each. */
  predicate ListsFindings(rules: Rules, doc: Option<Document>, fontOrder: seq<string>, sizeOrder: seq<nat>) {
    doc.Some? ==> Enumerates(fontOrder, FontNames(rules, doc.value)) && Enumerates(sizeOrder, FontSizes(rules, doc.value))
  }

  /**
   * The issues `check_fonts` appends, when the offending font names are
   * listed in the order `fontOrder` and the offending sizes in `sizeOrder`
   * (the iteration order of a Python set).
   */
  function FontIssues(rules: Rules, doc: Option<Document>, fontOrder: seq<string>, sizeOrder: seq<nat>): (r: seq<Issue>)
    ensures doc.None? ==> r == []
  {
    if doc.None? then []
    else IssueIf(FontNames(rules, doc.value) != {}, FontNameIssue(fontOrder)) +
         IssueIf(FontSizes(rules, doc.value) != {}, FontSizeIssue(rules, sizeOrder))
  }

  /** The points `check_fonts` deducts: 10 for any non-standard font, 5 for any bad size. */
  function FontDeduction(rules: Rules, doc: Option<Document>): nat {
    if doc.None? then 0
    else (if FontNames(rules, doc.value) != {} then FontWeight else 0) +
         (if FontSizes(rules, doc.value) != {} then FontSizeDeduction else 0)
  }

  /** The listing order of fonts and sizes does not change what is deducted. */
  lemma FontIssuesSpec(rules: Rules, doc: Option<Document>, fontOrder: seq<string>, sizeOrder: seq<nat>)
    ensures SumDeductions(FontIssues(rules, doc, fontOrder, sizeOrder)) == FontDeduction(rules, doc)
    ensures AllDeduct(FontIssues(rules, doc, fontOrder, sizeOrder))
  {
    if doc.Some? {
      var names := FontNames(rules, doc.value) != {};
      var sizes := FontSizes(rules, doc.value) != {};
      IssuePairDeduction(names, FontNameIssue(fontOrder), sizes, FontSizeIssue(rules, sizeOrder));
      IssueIfDeduction(names, FontNameIssue(fontOrder));
      IssueIfDeduction(sizes, FontSizeIssue(rules, sizeOrder));
      AllDeductAppend(IssueIf(names, FontNameIssue(fontOrder)), IssueIf(sizes, FontSizeIssue(rules, sizeOrder)));
    }
  }

  /**
   * The scan of `check_fonts` over paragraphs and runs: the set of
   * non-standard font names and the list of out-of-range sizes.
   */
  method ScanFonts(paras: seq<Paragraph>, allowed: seq<string>, minPt: int, maxPt: int)
    returns (nonStandard: set<string>, invalidSizes: seq<nat>)
    ensures nonStandard == NonStandardFonts(AllRuns(paras), allowed)
    ensures invalidSizes == BadSizes(AllRuns(paras), minPt, maxPt)
  {
    nonStandard := {};
    invalidSizes := [];
    var i := 0;
    while i < |paras|
      invariant 0 <= i <= |paras|
      invariant nonStandard == NonStandardFonts(AllRuns(paras[..i]), allowed)
      invariant invalidSizes == BadSizes(AllRuns(paras[..i]), minPt, maxPt)
    {
      var runs := paras[i].runs;
      ghost var before := AllRuns(paras[..i]);
      assert AllRuns(paras[..i + 1]) == before + runs by {
        assert paras[..i + 1][..i] == paras[..i];
      }
      assert before + runs[..0] == before;
      var k := 0;
      while k < |runs|
        invariant 0 <= k <= |runs|
        invariant nonStandard == NonStandardFonts(before + runs[..k], allowed)
        invariant invalidSizes == BadSizes(before + runs[..k], minPt, maxPt)
      {
        var run := runs[k];
        ghost var seen := before + runs[..k];
        AppendPrefixStep(before, runs, k);
        NonStandardFontsSnoc(seen, run, allowed);
        BadSizesSnoc(seen, run, minPt, maxPt);
        if HasFontName(run) && run.font.value !in allowed {
          nonStandard := nonStandard + {run.font.value};
        }
        if run.halfPoints.Some? && run.halfPoints.value > 0 {
          var h := run.halfPoints.value;
          if h < 2 * minPt || h > 2 * maxPt {
            invalidSizes := invalidSizes + [h];
          }
        }
        k := k + 1;
      }
      assert runs[..k] == runs;
      i := i + 1;
    }
    assert paras[..i] == paras;
  }

  lemma NonStandardFontsSnoc(runs: seq<Run>, run: Run, allowed: seq<string>)
    ensures NonStandardFonts(runs + [run], allowed) ==
      NonStandardFonts(runs, allowed) + (if NonStandardRun(run, allowed) then {run.font.value} else {})
  {
    var ext := runs + [run];
    assert ext[|runs|] == run;
    assert forall k :: 0 <= k < |runs| ==> ext[k] == runs[k];
  }

  lemma BadSizesSnoc(runs: seq<Run>, run: Run, minPt: int, maxPt: int)
    ensures BadSizes(runs + [run], minPt, maxPt) ==
      BadSizes(runs, minPt, maxPt) + (if BadSizeRun(run, minPt, maxPt) then [run.halfPoints.value] else [])
  {
    assert (runs + [run])[..|runs|] == runs;
  }

  // ----- check_headers_footers -----

  const HeaderIssue := Issue(Medium, "Header contains text - ATS may not read it", HeaderDeduction)
  const FooterIssue := Issue(Medium, "Footer contains text - ATS may not read it", FooterDeduction)

  /** The issues recorded for one section. */
  function SectionIssues(s: Section): seq<Issue> {
    IssueIf(AnyNonBlank(s.header), HeaderIssue) + IssueIf(AnyNonBlank(s.footer), FooterIssue)
  }

  function SectionsIssues(sections: seq<Section>): seq<Issue> {
    if sections == [] then []
    else SectionsIssues(sections[..|sections| - 1]) + SectionIssues(sections[|sections| - 1])
  }

  /** One more section adds its own issues and counts. */
  lemma SectionsStep(sections: seq<Section>, i: nat)
    requires i < |sections|
    ensures SectionsIssues(sections[..i + 1]) == SectionsIssues(sections[..i]) + SectionIssues(sections[i])
    ensures CountHeaders(sections[..i + 1]) == CountHeaders(sections[..i]) + (if AnyNonBlank(sections[i].header) then 1 else 0)
    ensures CountFooters(sections[..i + 1]) == CountFooters(sections[..i]) + (if AnyNonBlank(sections[i].footer) then 1 else 0)
  {
    assert sections[..i + 1][..i] == sections[..i];
  }

  /** The number of sections whose header shows text. */
  function CountHeaders(sections: seq<Section>): nat {
    if sections == [] then 0
    else CountHeaders(sections[..|sections| - 1]) + (if AnyNonBlank(sections[|sections| - 1].header) then 1 else 0)
  }

  /** The number of sections whose footer shows text. */
  function CountFooters(sections: seq<Section>): nat {
    if sections == [] then 0
    else CountFooters(sections[..|sections| - 1]) + (if AnyNonBlank(sections[|sections| - 1].footer) then 1 else 0)
  }

  /** 8 points per section with header text and 7 per section with footer text. */
  lemma {:induction false} SectionsDeduction(sections: seq<Section>)
    ensures SumDeductions(SectionsIssues(sections)) ==
      8 * CountHeaders(sections) + 7 * CountFooters(sections)
  {
    if sections != [] {
      var pre := sections[..|sections| - 1];
      var s := sections[|sections| - 1];
      SectionsDeduction(pre);
      IssuePairDeduction(AnyNonBlank(s.header), HeaderIssue, AnyNonBlank(s.footer), FooterIssue);
      SumDeductionsAppend(SectionsIssues(pre), SectionIssues(s));
    }
  }

  lemma {:induction false} SectionsAllDeduct(sections: seq<Section>)
    ensures AllDeduct(SectionsIssues(sections))
  {
    if sections != [] {
      var pre := sections[..|sections| - 1];
      SectionsAllDeduct(pre);
      AllDeductAppend(SectionsIssues(pre), SectionIssues(sections[|sections| - 1]));
    }
  }

  /** The issues `check_headers_footers` appends. */
  function HeaderFooterIssues(doc: Option<Document>): (r: seq<Issue>)
    ensures doc.None? ==> r == []
  {
    if doc.None? then [] else SectionsIssues(doc.value.sections)
  }

  /** The points `check_headers_footers` deducts. */
  function HeaderFooterDeduction(doc: Option<Document>): nat {
    if doc.None? then 0 else 8 * CountHeaders(doc.value.sections) + 7 * CountFooters(doc.value.sections)
  }

  lemma HeaderFooterIssuesDeduction(doc: Option<Document>)
    ensures SumDeductions(HeaderFooterIssues(doc)) == HeaderFooterDeduction(doc)
    ensures AllDeduct(HeaderFooterIssues(doc))
  {
    if doc.Some? {
      SectionsDeduction(doc.value.sections);
      SectionsAllDeduct(doc.value.sections);
    }
  }

  // ----- check_graphics -----

  /** Some relationship target contains "image", compared on the lower-cased target. */
  predicate ImageRelationship(doc: Document) {
    exists i :: 0 <= i < |doc.relTargets| && Contains(Lower(doc.relTargets[i]), "image")
  }

  const GraphicsIssue := Issue(High, "Images/graphics detected - ATS cannot read these", GraphicsWeight)

  function GraphicsIssues(doc: Option<Document>): (r: seq<Issue>)
    ensures r == [] || r == [GraphicsIssue]
    ensures r == [GraphicsIssue] <==> doc.Some? && ImageRelationship(doc.value)
  {
    IssueIf(doc.Some? && ImageRelationship(doc.value), GraphicsIssue)
  }

  /** The points `check_graphics` deducts: 20 for an image relationship. */
  function GraphicsDeduction(doc: Option<Document>): nat {
    if doc.Some? && ImageRelationship(doc.value) then 20 else 0
  }

  lemma GraphicsIssuesDeduction(doc: Option<Document>)
    ensures SumDeductions(GraphicsIssues(doc)) == GraphicsDeduction(doc)
    ensures AllDeduct(GraphicsIssues(doc))
  {
    IssueIfDeduction(doc.Some? && ImageRelationship(doc.value), GraphicsIssue);
  }

  /** The scan of `has_graphics` in `docx_handler.py`, which does not lower-case the target. */
  predicate CaseSensitiveImageRelationship(doc: Document) {
    exists i :: 0 <= i < |doc.relTargets| && Contains(doc.relTargets[i], "image")
  }

  /** What `has_graphics` reports, the checker reports too. */
  lemma CaseSensitiveImpliesGraphicsIssue(doc: Document)
    requires CaseSensitiveImageRelationship(doc)
    ensures GraphicsIssues(Some(doc)) == [GraphicsIssue]
  {
    var i :| 0 <= i < |doc.relTargets| && Contains(doc.relTargets[i], "image");
    assert Lower("image") == "image";
    LowerKeepsLowerOccurrence(doc.relTargets[i], "image");
  }

  /** The converse fails: an upper-case "IMAGE" target is flagged by the checker only. */
  lemma UpperCaseImageOnlyFlaggedByChecker()
    ensures var doc := Document([], 0, [], ["IMAGE"]);
      !CaseSensitiveImageRelationship(doc) && GraphicsIssues(Some(doc)) == [GraphicsIssue]
  {
    var doc := Document([], 0, [], ["IMAGE"]);
    assert doc.relTargets[0] == "IMAGE";
    assert Lower("IMAGE") == "image";
    assert OccursAt(Lower(doc.relTargets[0]), "image", 0);
    assert !Contains("IMAGE", "image") by {
      forall j | 0 <= j <= 5 ensures !OccursAt("IMAGE", "image", j) {
        if j == 0 {
          assert "IMAGE"[0] != "image"[0];
        } else {
          assert |"IMAGE"[j..]| < 5;
        }
      }
    }
  }

  // ----- check_special_characters -----

  /** `[b for b in unusual_bullets if b in text]`. */
  function FoundGlyphs(glyphs: seq<char>, text: string): (r: seq<char>)
    ensures forall c :: c in r <==> c in glyphs && c in text
    ensures |r| <= |glyphs|
  {
    if glyphs == [] then []
    else FoundGlyphs(glyphs[..|glyphs| - 1], text) + (if glyphs[|glyphs| - 1] in text then [glyphs[|glyphs| - 1]] else [])
  }

  /** The glyphs as one-character strings joined by ", ". */
  function GlyphList(cs: seq<char>): string {
    Join(seq(|cs|, i requires 0 <= i < |cs| => [cs[i]]), ", ")
  }

  function SpecialCharIssue(found: seq<char>): Issue {
    Issue(Low, "Unusual bullet points detected: " + GlyphList(found), SpecialCharDeduction)
  }

  /** The text `check_special_characters` scans: the paragraph texts joined by newlines. */
  function DocumentText(doc: Document): string {
    Join(ParagraphTexts(doc.paragraphs), "\n")
  }

  function SpecialCharIssues(doc: Option<Document>): (r: seq<Issue>)
    ensures doc.None? ==> r == []
    ensures |r| <= 1
  {
    if doc.None? then []
    else
      var found := FoundGlyphs(UnusualBullets, DocumentText(doc.value));
      IssueIf(found != [], SpecialCharIssue(found))
  }

  /** Some unusual glyph occurs in the document text. */
  predicate HasUnusualBullet(doc: Document) {
    exists c :: c in UnusualBullets && c in DocumentText(doc)
  }

  /** The points `check_special_characters` deducts: 5 when an unusual glyph occurs. */
  function SpecialCharDeductionOf(doc: Option<Document>): nat {
    if doc.Some? && HasUnusualBullet(doc.value) then 5 else 0
  }

  /** One issue exactly when some unusual glyph occurs in the text. */
  lemma SpecialCharIssuesSpec(doc: Option<Document>)
    ensures SpecialCharIssues(doc) != [] <==> doc.Some? && HasUnusualBullet(doc.value)
    ensures SumDeductions(SpecialCharIssues(doc)) == SpecialCharDeductionOf(doc)
    ensures AllDeduct(SpecialCharIssues(doc))
  {
    if doc.Some? {
      var found := FoundGlyphs(UnusualBullets, DocumentText(doc.value));
      if found != [] {
        assert found[0] in found;
      }
      IssueIfDeduction(found != [], SpecialCharIssue(found));
    }
  }

  // ----- the whole run -----

  /** The issues one `calculate_total_score` call appends, in the order the checks run. */
  function AllIssues(cvPath: string, rules: Rules, doc: Option<Document>, fontOrder: seq<string>, sizeOrder: seq<nat>): seq<Issue> {
    FormatIssues(cvPath, rules) + LayoutIssues(doc) + FontIssues(rules, doc, fontOrder, sizeOrder) +
    HeaderFooterIssues(doc) + GraphicsIssues(doc) + SpecialCharIssues(doc)
  }

  /** The points one run of the checks deducts. */
  function TotalDeduction(cvPath: string, rules: Rules, doc: Option<Document>): nat {
    FormatDeduction(cvPath, rules) + LayoutDeduction(doc) + FontDeduction(rules, doc) +
    HeaderFooterDeduction(doc) + GraphicsDeduction(doc) + SpecialCharDeductionOf(doc)
  }

  lemma SumDeductionsConcat(a: seq<Issue>, b: seq<Issue>, c: seq<Issue>, d: seq<Issue>, e: seq<Issue>, g: seq<Issue>)
    ensures SumDeductions(a + b + c + d + e + g) ==
      SumDeductions(a) + SumDeductions(b) + SumDeductions(c) + SumDeductions(d) + SumDeductions(e) + SumDeductions(g)
  {
    SumDeductionsAppend(a, b);
    SumDeductionsAppend(a + b, c);
    SumDeductionsAppend(a + b + c, d);
    SumDeductionsAppend(a + b + c + d, e);
    SumDeductionsAppend(a + b + c + d + e, g);
  }

  lemma AllDeductConcat(a: seq<Issue>, b: seq<Issue>, c: seq<Issue>, d: seq<Issue>, e: seq<Issue>, g: seq<Issue>)
    requires AllDeduct(a) && AllDeduct(b) && AllDeduct(c) && AllDeduct(d) && AllDeduct(e) && AllDeduct(g)
    ensures AllDeduct(a + b + c + d + e + g)
  {
    AllDeductAppend(a, b);
    AllDeductAppend(a + b, c);
    AllDeductAppend(a + b + c, d);
    AllDeductAppend(a + b + c + d, e);
    AllDeductAppend(a + b + c + d + e, g);
  }

  /** The recorded issues account for every point deducted, each issue for a positive amount. */
  lemma AllIssuesDeduction(cvPath: string, rules: Rules, doc: Option<Document>, fontOrder: seq<string>, sizeOrder: seq<nat>)
    ensures SumDeductions(AllIssues(cvPath, rules, doc, fontOrder, sizeOrder)) == TotalDeduction(cvPath, rules, doc)
    ensures AllDeduct(AllIssues(cvPath, rules, doc, fontOrder, sizeOrder))
  {
    FormatIssuesDeduction(cvPath, rules);
    LayoutIssuesDeduction(doc);
    FontIssuesSpec(rules, doc, fontOrder, sizeOrder);
    HeaderFooterIssuesDeduction(doc);
    GraphicsIssuesDeduction(doc);
    SpecialCharIssuesSpec(doc);
    SumDeductionsConcat(FormatIssues(cvPath, rules), LayoutIssues(doc), FontIssues(rules, doc, fontOrder, sizeOrder),
      HeaderFooterIssues(doc), GraphicsIssues(doc), SpecialCharIssues(doc));
    AllDeductConcat(FormatIssues(cvPath, rules), LayoutIssues(doc), FontIssues(rules, doc, fontOrder, sizeOrder),
      HeaderFooterIssues(doc), GraphicsIssues(doc), SpecialCharIssues(doc));
  }

  /** The score `calculate_total_score` returns for a checker with these inputs. */
  function FinalScore(cvPath: string, rules: Rules, doc: Option<Document>): (r: int)
    ensures 0 <= r <= 100
  {
    Max(0, 100 - TotalDeduction(cvPath, rules, doc))
  }

  /** A perfect score means no check recorded anything. */
  lemma PerfectScoreIffNoIssues(cvPath: string, rules: Rules, doc: Option<Document>, fontOrder: seq<string>, sizeOrder: seq<nat>)
    ensures FinalScore(cvPath, rules, doc) == 100 <==> AllIssues(cvPath, rules, doc, fontOrder, sizeOrder) == []
  {
    AllIssuesDeduction(cvPath, rules, doc, fontOrder, sizeOrder);
    NoDeductionMeansNoIssues(AllIssues(cvPath, rules, doc, fontOrder, sizeOrder));
  }

  /** Without a loaded document only the file-format check can deduct. */
  lemma WithoutDocumentOnlyFormatCounts(cvPath: string, rules: Rules, fontOrder: seq<string>, sizeOrder: seq<nat>)
    ensures AllIssues(cvPath, rules, None, fontOrder, sizeOrder) == FormatIssues(cvPath, rules)
    ensures FinalScore(cvPath, rules, None) == (if Lower(Extension(cvPath)) in rules.allowedFormats then 100 else 70)
  {
    var a := FormatIssues(cvPath, rules);
    assert AllIssues(cvPath, rules, None, fontOrder, sizeOrder) == a + [] + [] + [] + [] + [];
  }

  /** The rules' `scoring` block has no effect on the score. */
  lemma ScoringBlockIgnored(cvPath: string, rules: Rules, scoring: Scoring, doc: Option<Document>)
    ensures FinalScore(cvPath, rules.(scoring := scoring), doc) == FinalScore(cvPath, rules, doc)
  {
    var other := rules.(scoring := scoring);
    assert other.allowedFormats == rules.allowedFormats && other.fonts == rules.fonts;
    assert FormatIssues(cvPath, other) == FormatIssues(cvPath, rules);
    assert FontDeduction(other, doc) == FontDeduction(rules, doc) by {
      if doc.Some? {
        assert FontNames(other, doc.value) == FontNames(rules, doc.value);
        assert FontSizes(other, doc.value) == FontSizes(rules, doc.value);
      }
    }
  }

  /** A one-paragraph CV with one table, set in 11-point Comic Sans. */
  const TableAndFontCv := Document([Paragraph([Run("Analyst", Some("Comic Sans"), Some(22), false)], None)], 1, [], [])

  /** That CV loses 15 points for the table and 10 for the font, and scores 75. */
  lemma TableAndFontScenario()
    ensures FinalScore("cv.docx", DefaultRules, Some(TableAndFontCv)) == 75
  {
    DocxIsAllowedByDefault();
    TableAndFontCvLayout();
    TableAndFontCvFonts();
    TableAndFontCvText();
    assert TotalDeduction("cv.docx", DefaultRules, Some(TableAndFontCv)) == 25;
  }

  lemma TableAndFontCvLayout()
    ensures LayoutDeduction(Some(TableAndFontCv)) == 15
    ensures HeaderFooterDeduction(Some(TableAndFontCv)) == 0
    ensures GraphicsDeduction(Some(TableAndFontCv)) == 0
  {
  }

  /** A `.docx` file passes the default format rule. */
  lemma DocxIsAllowedByDefault()
    ensures FormatDeduction("cv.docx", DefaultRules) == 0
  {
    ExtensionOfDocxName();
    assert DefaultRules.allowedFormats == [".docx"];
  }

  lemma TableAndFontCvFonts()
    ensures FontDeduction(DefaultRules, Some(TableAndFontCv)) == 10
  {
    var doc := TableAndFontCv;
    var run := doc.paragraphs[0].runs[0];
    assert AllRuns(doc.paragraphs) == [run] by {
      assert doc.paragraphs[..0] == [];
    }
    assert NonStandardRun(run, DefaultRules.fonts.allowed);
    assert "Comic Sans" in FontNames(DefaultRules, doc);
    assert BadSizes([run], 10, 12) == [] by {
      assert [run][..0] == [];
    }
  }

  lemma TableAndFontCvText()
    ensures SpecialCharDeductionOf(Some(TableAndFontCv)) == 0
  {
    var text := DocumentText(TableAndFontCv);
    assert text == "Analyst" by {
      var texts := ParagraphTexts(TableAndFontCv.paragraphs);
      assert texts == ["Analyst"];
    }
    forall c | c in UnusualBullets ensures c !in text {
      assert c > 'z';
      assert forall i :: 0 <= i < |text| ==> text[i] <= 'z';
    }
  }

  // ----- report -----

  /** `_get_grade`. */
  function Grade(score: int): (g: string)
    ensures g == "A - Excellent" <==> score >= 90
    ensures g == "B - Good" <==> 80 <= score < 90
    ensures g == "C - Acceptable" <==> 70 <= score < 80
    ensures g == "D - Needs Improvement" <==> 60 <= score < 70
    ensures g == "F - Major Issues" <==> score < 60
  {
    if score >= 90 then "A - Excellent"
    else if score >= 80 then "B - Good"
    else if score >= 70 then "C - Acceptable"
    else if score >= 60 then "D - Needs Improvement"
    else "F - Major Issues"
  }

  /** The position of a grade in the list from best to worst. */
  function GradeRank(g: string): nat {
    if g == "A - Excellent" then 0
    else if g == "B - Good" then 1
    else if g == "C - Acceptable" then 2
    else if g == "D - Needs Improvement" then 3
    else 4
  }

  /** A higher score never gets a worse grade. */
  lemma GradeMonotone(s1: int, s2: int)
    requires s1 <= s2
    ensures GradeRank(Grade(s2)) <= GradeRank(Grade(s1))
  {
  }

  const TableAdvice := "Remove all tables and use plain text with bullets"
  const ColumnAdvice := "Convert to single-column layout"
  const FontAdvice := "Change all fonts to Calibri, Arial, or Times New Roman (10-12pt)"
  const HeaderFooterAdvice := "Move all header/footer content into main document body"
  const GraphicsAdvice := "Remove all images, logos, and graphics"
  const FormatAdvice := "Convert file to .docx format"

  /** The recommendation for one issue text: the first keyword of the chain that occurs decides. */
  function Recommendation(issueText: string): (r: Option<string>)
    ensures r.Some? ==> r.value in {TableAdvice, ColumnAdvice, FontAdvice, HeaderFooterAdvice, GraphicsAdvice, FormatAdvice}
    ensures Contains(Lower(issueText), "table") ==> r == Some(TableAdvice)
    ensures r.None? ==> !Contains(Lower(issueText), "format")
  {
    var t := Lower(issueText);
    if Contains(t, "table") then Some(TableAdvice)
    else if Contains(t, "column") then Some(ColumnAdvice)
    else if Contains(t, "font") then Some(FontAdvice)
    else if Contains(t, "header") || Contains(t, "footer") then Some(HeaderFooterAdvice)
    else if Contains(t, "image") || Contains(t, "graphic") then Some(GraphicsAdvice)
    else if Contains(t, "format") then Some(FormatAdvice)
    else None
  }

  /** `_get_recommendations`: the distinct recommendations of the recorded issues. */
  function Recommendations(issues: seq<Issue>): (r: set<string>)
    ensures |r| <= |issues|
    ensures r <= {TableAdvice, ColumnAdvice, FontAdvice, HeaderFooterAdvice, GraphicsAdvice, FormatAdvice}
  {
    if issues == [] then {}
    else
      var last := Recommendation(issues[|issues| - 1].text);
      Recommendations(issues[..|issues| - 1]) + (if last.Some? then {last.value} else {})
  }

  /** A recommendation is given exactly when some issue calls for it. */
  lemma {:induction false} RecommendationsSpec(issues: seq<Issue>, rec: string)
    ensures rec in Recommendations(issues) <==> exists i :: 0 <= i < |issues| && Recommendation(issues[i].text) == Some(rec)
  {
    if issues != [] {
      var pre := issues[..|issues| - 1];
      RecommendationsSpec(pre, rec);
      assert forall i :: 0 <= i < |pre| ==> pre[i] == issues[i];
    }
  }

  /** Issues sorted by deduction, highest first. */
  predicate SortedByDeduction(s: seq<Issue>) {
    forall i, j :: 0 <= i < j < |s| ==> s[i].deduction >= s[j].deduction
  }

  /** The issues with deduction `d`, in order. */
  function WithDeduction(s: seq<Issue>, d: nat): seq<Issue> {
    if s == [] then [] else (if s[0].deduction == d then [s[0]] else []) + WithDeduction(s[1..], d)
  }

  lemma {:induction false} WithDeductionAppend(a: seq<Issue>, b: seq<Issue>, d: nat)
    ensures WithDeduction(a + b, d) == WithDeduction(a, d) + WithDeduction(b, d)
  {
    if a == [] {
      assert a + b == b;
    } else {
      var head := if a[0].deduction == d then [a[0]] else [];
      assert (a + b)[0] == a[0];
      assert (a + b)[1..] == a[1..] + b;
      calc {
        WithDeduction(a + b, d);
        head + WithDeduction(a[1..] + b, d);
        { WithDeductionAppend(a[1..], b, d); }
        head + (WithDeduction(a[1..], d) + WithDeduction(b, d));
        { AppendAssoc(head, WithDeduction(a[1..], d), WithDeduction(b, d)); }
        WithDeduction(a, d) + WithDeduction(b, d);
      }
    }
  }

  lemma {:induction false} WithDeductionNone(s: seq<Issue>, d: nat)
    requires forall i :: 0 <= i < |s| ==> s[i].deduction < d
    ensures WithDeduction(s, d) == []
  {
    if s != [] {
      WithDeductionNone(s[1..], d);
    }
  }

  /** Places `x` after every leading issue whose deduction is at least its own. */
  function InsertByDeduction(sorted: seq<Issue>, x: Issue): seq<Issue> {
    if sorted == [] then [x]
    else if sorted[0].deduction >= x.deduction then [sorted[0]] + InsertByDeduction(sorted[1..], x)
    else [x] + sorted
  }

  lemma {:induction false} InsertByDeductionPerm(sorted: seq<Issue>, x: Issue)
    ensures multiset(InsertByDeduction(sorted, x)) == multiset(sorted) + multiset{x}
  {
    if sorted != [] && sorted[0].deduction >= x.deduction {
      InsertByDeductionPerm(sorted[1..], x);
      assert sorted == [sorted[0]] + sorted[1..];
    }
  }

  /** No issue of `s` deducts more than `b`. */
  predicate AllAtMost(s: seq<Issue>, b: nat) {
    forall i :: 0 <= i < |s| ==> s[i].deduction <= b
  }

  lemma {:induction false} InsertByDeductionAtMost(sorted: seq<Issue>, x: Issue, b: nat)
    requires AllAtMost(sorted, b) && x.deduction <= b
    ensures AllAtMost(InsertByDeduction(sorted, x), b)
  {
    if sorted != [] && sorted[0].deduction >= x.deduction {
      InsertByDeductionAtMost(sorted[1..], x, b);
    }
  }

  lemma {:induction false} InsertByDeductionSorted(sorted: seq<Issue>, x: Issue)
    requires SortedByDeduction(sorted)
    ensures SortedByDeduction(InsertByDeduction(sorted, x))
  {
    if sorted == [] {
    } else if sorted[0].deduction >= x.deduction {
      var tail := sorted[1..];
      var t := InsertByDeduction(tail, x);
      InsertByDeductionSorted(tail, x);
      InsertByDeductionAtMost(tail, x, sorted[0].deduction);
      var r := [sorted[0]] + t;
      forall i, j | 0 <= i < j < |r|
        ensures r[i].deduction >= r[j].deduction
      {
        assert r[j] == t[j - 1];
        if i > 0 {
          assert r[i] == t[i - 1];
        }
      }
    } else {
      var r := [x] + sorted;
      forall i, j | 0 <= i < j < |r|
        ensures r[i].deduction >= r[j].deduction
      {
        assert r[j] == sorted[j - 1];
        if i > 0 {
          assert r[i] == sorted[i - 1];
        }
      }
    }
  }

  lemma WithDeductionSingle(x: Issue, d: nat)
    ensures WithDeduction([x], d) == if x.deduction == d then [x] else []
  {
    assert [x][1..] == [];
  }

  lemma {:induction false} InsertByDeductionStable(sorted: seq<Issue>, x: Issue, d: nat)
    requires SortedByDeduction(sorted)
    ensures WithDeduction(InsertByDeduction(sorted, x), d) ==
      WithDeduction(sorted, d) + (if x.deduction == d then [x] else [])
  {
    var mine := if x.deduction == d then [x] else [];
    WithDeductionSingle(x, d);
    if sorted == [] {
    } else if sorted[0].deduction >= x.deduction {
      var tail := sorted[1..];
      var head := [sorted[0]];
      InsertByDeductionStable(tail, x, d);
      calc {
        WithDeduction(InsertByDeduction(sorted, x), d);
        { WithDeductionAppend(head, InsertByDeduction(tail, x), d); }
        WithDeduction(head, d) + (WithDeduction(tail, d) + mine);
        { AppendAssoc(WithDeduction(head, d), WithDeduction(tail, d), mine); }
        (WithDeduction(head, d) + WithDeduction(tail, d)) + mine;
        { WithDeductionAppend(head, tail, d); assert head + tail == sorted; }
        WithDeduction(sorted, d) + mine;
      }
    } else {
      WithDeductionAppend([x], sorted, d);
      if x.deduction == d {
        WithDeductionNone(sorted, d);
      }
    }
  }

  /** `sorted(issues, key=lambda x: x['deduction'], reverse=True)`: a stable insertion sort. */
  function SortByDeduction(issues: seq<Issue>): seq<Issue> {
    if issues == [] then []
    else InsertByDeduction(SortByDeduction(issues[..|issues| - 1]), issues[|issues| - 1])
  }

  /** The sorted list is a permutation of the issues, highest deduction first. */
  lemma {:induction false} SortByDeductionSpec(issues: seq<Issue>)
    ensures multiset(SortByDeduction(issues)) == multiset(issues)
    ensures SortedByDeduction(SortByDeduction(issues))
  {
    if issues != [] {
      var pre := issues[..|issues| - 1];
      var x := issues[|issues| - 1];
      SortByDeductionSpec(pre);
      InsertByDeductionPerm(SortByDeduction(pre), x);
      InsertByDeductionSorted(SortByDeduction(pre), x);
      assert issues == pre + [x];
    }
  }

  /** The sort is stable: issues with equal deductions keep their relative order. */
  lemma {:induction false} SortByDeductionStable(issues: seq<Issue>, d: nat)
    ensures WithDeduction(SortByDeduction(issues), d) == WithDeduction(issues, d)
  {
    if issues != [] {
      var pre := issues[..|issues| - 1];
      var x := issues[|issues| - 1];
      SortByDeductionStable(pre, d);
      SortByDeductionSpec(pre);
      InsertByDeductionStable(SortByDeduction(pre), x, d);
      WithDeductionAppend(pre, [x], d);
      assert WithDeduction([x], d) == (if x.deduction == d then [x] else []) by {
        assert [x][1..] == [];
      }
      assert issues == pre + [x];
    }
  }

  /** The report of `generate_report`. */
  datatype Report = Report(score: int, grade: string, issues: seq<Issue>, recommendations: set<string>)

  /** `ATSCompatibilityChecker`: the CV, its rules and document, and the accumulated findings. */
  class ATSCompatibilityChecker {
    const cvPath: string
    const rules: Rules
    const doc: Option<Document>
    var issues: seq<Issue>
    var score: int

    /**
     * `rulesFile` is the parsed rules file, or `None` when it does not
     * exist; `loaded` is the document read from `cvPath`, kept only when
     * the extension is `.docx` in any letter case.
     */
    constructor (cvPath: string, rulesFile: Option<Rules>, loaded: Document)
      ensures this.cvPath == cvPath
      ensures rules == (if rulesFile.Some? then rulesFile.value else DefaultRules)
      ensures doc == (if Lower(Extension(cvPath)) == ".docx" then Some(loaded) else None)
      ensures issues == [] && score == 100
    {
      this.cvPath := cvPath;
      rules := if rulesFile.Some? then rulesFile.value else DefaultRules;
      doc := if Lower(Extension(cvPath)) == ".docx" then Some(loaded) else None;
      issues := [];
      score := 100;
    }

    /** `check_file_format`. */
    method CheckFileFormat() returns (d: int)
      modifies this`issues
      ensures issues == old(issues) + FormatIssues(cvPath, rules)
      ensures d == -(FormatDeduction(cvPath, rules) as int)
    {
      var ext := Extension(cvPath);
      var allowed := rules.allowedFormats;
      if Lower(ext) !in allowed {
        var deduction: int := -(FileFormatWeight as int);
        issues := issues + [FormatIssue(ext, allowed)];
        return deduction;
      }
      return 0;
    }

    /** `check_layout`: tables, then the first section with more than one column. */
    method CheckLayout() returns (d: int)
      modifies this`issues
      ensures issues == old(issues) + LayoutIssues(doc)
      ensures d == -(LayoutDeduction(doc) as int)
    {
      if doc.None? {
        return 0;
      }
      var document := doc.value;
      var deduction: int := 0;
      if document.tableCount > 0 {
        issues := issues + [TableIssue(document.tableCount)];
        deduction := deduction + TableDeduction;
      }
      ghost var afterTables := issues;
      var i := 0;
      while i < |document.sections|
        invariant 0 <= i <= |document.sections|
        invariant forall j :: 0 <= j < i ==> !IsMultiColumn(document.sections[j])
        invariant issues == afterTables
      {
        var columns := document.sections[i].columns;
        if columns.Some? && columns.value > 1 {
          issues := issues + [ColumnIssue];
          deduction := deduction + ColumnDeduction;
          break;
        }
        i := i + 1;
      }
      LayoutIssuesSpec(document);
      if i < |document.sections| {
        assert IsMultiColumn(document.sections[i]);
      }
      return -deduction;
    }

    /** `check_fonts`: at most one issue for fonts and one for sizes. */
    method CheckFonts() returns (d: int, ghost fontOrder: seq<string>, ghost sizeOrder: seq<nat>)
      modifies this`issues
      ensures ListsFindings(rules, doc, fontOrder, sizeOrder)
      ensures issues == old(issues) + FontIssues(rules, doc, fontOrder, sizeOrder)
      ensures d == -(FontDeduction(rules, doc) as int)
    {
      if doc.None? {
        fontOrder, sizeOrder := [], [];
        return 0, fontOrder, sizeOrder;
      }
      var minSize := MinSize(rules);
      var maxSize := MaxSize(rules);
      var nonStandard, invalidSizes := ScanFonts(doc.value.paragraphs, rules.fonts.allowed, minSize, maxSize);
      var fonts := SetToSeq(nonStandard);
      var sizes := SetToSeq(Elems(invalidSizes));
      fontOrder, sizeOrder := fonts, sizes;
      assert nonStandard == FontNames(rules, doc.value);
      assert invalidSizes != [] <==> FontSizes(rules, doc.value) != {} by {
        if invalidSizes != [] {
          assert invalidSizes[0] in Elems(invalidSizes);
        }
      }
      ghost var nameIssue := IssueIf(nonStandard != {}, FontNameIssue(fonts));
      ghost var sizeIssue := IssueIf(invalidSizes != [], FontSizeIssue(rules, sizes));
      var deduction: int := 0;
      if nonStandard != {} {
        issues := issues + [FontNameIssue(fonts)];
        deduction := deduction + FontWeight;
      }
      assert issues == old(issues) + nameIssue;
      ghost var middle := issues;
      if invalidSizes != [] {
        issues := issues + [FontSizeIssue(rules, sizes)];
        deduction := deduction + FontSizeDeduction;
      }
      assert issues == middle + sizeIssue;
      AppendAssoc(old(issues), nameIssue, sizeIssue);
      return -deduction, fontOrder, sizeOrder;
    }

    /** The body of the loop in `check_headers_footers` for one section. */
    method CheckSection(s: Section) returns (d: nat)
      modifies this`issues
      ensures issues == old(issues) + SectionIssues(s)
      ensures d == (if AnyNonBlank(s.header) then HeaderDeduction else 0) + (if AnyNonBlank(s.footer) then FooterDeduction else 0)
    {
      d := 0;
      if AnyNonBlank(s.header) {
        issues := issues + [HeaderIssue];
        d := d + HeaderDeduction;
      }
      if AnyNonBlank(s.footer) {
        issues := issues + [FooterIssue];
        d := d + FooterDeduction;
      }
    }

    /** `check_headers_footers`: per section, one issue for header text and one for footer text. */
    method CheckHeadersFooters() returns (d: int)
      modifies this`issues
      ensures issues == old(issues) + HeaderFooterIssues(doc)
      ensures d == -(HeaderFooterDeduction(doc) as int)
    {
      if doc.None? {
        return 0;
      }
      var sections := doc.value.sections;
      var deduction: int := 0;
      var i := 0;
      while i < |sections|
        invariant 0 <= i <= |sections|
        invariant issues == old(issues) + SectionsIssues(sections[..i])
        invariant deduction == 8 * CountHeaders(sections[..i]) + 7 * CountFooters(sections[..i])
      {
        var s := sections[i];
        SectionsStep(sections, i);
        var sectionDeduction := CheckSection(s);
        AppendAssoc(old(issues), SectionsIssues(sections[..i]), SectionIssues(s));
        deduction := deduction + sectionDeduction;
        i := i + 1;
      }
      assert sections[..i] == sections;
      return -deduction;
    }

    /** `check_graphics`: one issue when a relationship target mentions an image. */
    method CheckGraphics() returns (d: int)
      modifies this`issues
      ensures issues == old(issues) + GraphicsIssues(doc)
      ensures d == -(GraphicsDeduction(doc) as int)
    {
      if doc.None? {
        return 0;
      }
      var targets := doc.value.relTargets;
      var hasGraphics := false;
      var i := 0;
      while i < |targets|
        invariant 0 <= i <= |targets|
        invariant !hasGraphics ==> forall j :: 0 <= j < i ==> !Contains(Lower(targets[j]), "image")
        invariant hasGraphics ==> ImageRelationship(doc.value)
      {
        if Contains(Lower(targets[i]), "image") {
          hasGraphics := true;
          break;
        }
        i := i + 1;
      }
      var deduction: int := 0;
      if hasGraphics {
        issues := issues + [GraphicsIssue];
        deduction := deduction + GraphicsWeight;
      }
      return -deduction;
    }

    /** `check_special_characters`: one issue listing the unusual glyphs found, in list order. */
    method CheckSpecialCharacters() returns (d: int)
      modifies this`issues
      ensures issues == old(issues) + SpecialCharIssues(doc)
      ensures d == -(SpecialCharDeductionOf(doc) as int)
    {
      if doc.None? {
        return 0;
      }
      var text := Join(ParagraphTexts(doc.value.paragraphs), "\n");
      var found := FoundGlyphs(UnusualBullets, text);
      if found != [] {
        issues := issues + [SpecialCharIssue(found)];
        SpecialCharIssuesSpec(doc);
        return -(SpecialCharDeduction as int);
      }
      SpecialCharIssuesSpec(doc);
      return 0;
    }

    /**
     * `calculate_total_score`: resets the score to 100, adds the six check
     * results and returns the score clamped at 0.  The issue list is not
     * cleared, so issues of earlier calls stay in front.
     */
    method CalculateTotalScore() returns (total: int, ghost fontOrder: seq<string>, ghost sizeOrder: seq<nat>)
      modifies this`issues, this`score
      ensures ListsFindings(rules, doc, fontOrder, sizeOrder)
      ensures issues == old(issues) + AllIssues(cvPath, rules, doc, fontOrder, sizeOrder)
      ensures score == 100 - TotalDeduction(cvPath, rules, doc)
      ensures total == FinalScore(cvPath, rules, doc)
    {
      score := 100;
      ghost var start := issues;
      var d := CheckFileFormat();
      score := score + d;
      d := CheckLayout();
      score := score + d;
      d, fontOrder, sizeOrder := CheckFonts();
      score := score + d;
      d := CheckHeadersFooters();
      score := score + d;
      d := CheckGraphics();
      score := score + d;
      d := CheckSpecialCharacters();
      score := score + d;
      AppendSix(start, FormatIssues(cvPath, rules), LayoutIssues(doc), FontIssues(rules, doc, fontOrder, sizeOrder),
        HeaderFooterIssues(doc), GraphicsIssues(doc), SpecialCharIssues(doc));
      total := Max(0, score);
    }

    /** `generate_report`: runs the checks, then grades and sorts everything recorded so far. */
    method GenerateReport() returns (report: Report, ghost fontOrder: seq<string>, ghost sizeOrder: seq<nat>)
      modifies this`issues, this`score
      ensures ListsFindings(rules, doc, fontOrder, sizeOrder)
      ensures issues == old(issues) + AllIssues(cvPath, rules, doc, fontOrder, sizeOrder)
      ensures report.score == FinalScore(cvPath, rules, doc)
      ensures report.grade == Grade(report.score)
      ensures report.issues == SortByDeduction(issues)
      ensures report.recommendations == Recommendations(issues)
    {
      var total;
      total, fontOrder, sizeOrder := CalculateTotalScore();
      report := Report(total, Grade(total), SortByDeduction(issues), Recommendations(issues));
    }
  }
}
