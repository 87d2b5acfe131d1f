/**
 * `src/engines/cv_tailor.py`: in-place edits of a copy of the base CV
 * driven by a job-description analysis.  Every edit either changes
 * nothing and reports `False`, or changes the paragraph list in a way the
 * functions below describe and records what it did in `operations`.
 */
module CvTailor {
  import opened Wrappers
  import opened TextUtil
  import opened Docx
  import JdParser

  /** `Pt(12)`: a python-docx `Length`, which counts EMU (12700 per point). */
  const Pt12Emu := 152400

  /** The paragraph style `insert_paragraph_before` and `add_paragraph(..., style='List Bullet')` set. */
  const ListBullet := "List Bullet"

  const ExperienceAlternatives := ["EXPERIENCE", "WORK EXPERIENCE", "EMPLOYMENT"]
  const SkillsAlternatives := ["SKILLS", "TECHNICAL SKILLS", "COMPETENCIES"]
  const ValuesSuffix := ": Demonstrated through relevant experience and professional approach"

  /** A value recorded in `self.operations`. */
  datatype Outcome = Flag(b: bool) | Count(n: nat) | Report(report: DensityReport)

  /** The section `inject_verbatim_keywords` looks for by default. */
  const DefaultExperienceSection := "PROFESSIONAL EXPERIENCE"

  /** What `generate_tailored_cv` returns: the success flag, the output path, the operations and the match percentage. */
  datatype TailoringResult = TailoringResult(success: bool, outputPath: string, operations: map<string, Outcome>, keywordMatchPercentage: real)

  /** `doc.add_heading(text, level=2)`. */
  function Heading(text: string): (p: Paragraph)
    ensures ParaText(p) == text
  {
    Rewritten(Some("Heading 2"), text)
  }

  /** A `List Bullet` paragraph holding one run. */
  function BulletParagraph(text: string): (p: Paragraph)
    ensures ParaText(p) == text && p.style == Some(ListBullet)
  {
    Rewritten(Some(ListBullet), text)
  }

  /** A paragraph cleared and given one run of `text`, keeping its style (`clear()` then `add_run(text)`). */
  function Rewritten(style: Option<string>, text: string): (p: Paragraph)
    ensures ParaText(p) == text && p.style == style
  {
    var p := Paragraph([PlainRun(text)], style);
    assert p.runs[1..] == [];
    assert RunsText(p.runs) == text + RunsText([]);
    assert text + "" == text;
    p
  }

  /** A find result Python treats as true: found, and not at index 0. */
  predicate Truthy(idx: Option<nat>) {
    idx.Some? && idx.value != 0
  }

  // ---------------------------------------------------------------------
  // match_job_title
  // ---------------------------------------------------------------------

  /**
   * `first_run.font.size and first_run.font.size.pt > Pt(12)`: the size in
   * points is compared with 12 points counted in EMU.
   */
  predicate SizeAbovePt12(run: Run) {
    run.halfPoints.Some? && run.halfPoints.value > 2 * Pt12Emu
  }

  /** A paragraph whose first run `match_job_title` takes for the title. */
  predicate QualifiesAsTitle(p: Paragraph) {
    p.runs != [] && (SizeAbovePt12(p.runs[0]) || p.runs[0].bold)
  }

  /** The first qualifying paragraph among the first 10. */
  function TitleIndex(paras: seq<Paragraph>): (r: Option<nat>)
    ensures r.Some? ==> r.value < 10 && r.value < |paras| && QualifiesAsTitle(paras[r.value])
    ensures r.Some? ==> forall k :: 0 <= k < r.value ==> !QualifiesAsTitle(paras[k])
    ensures r.None? ==> forall k :: 0 <= k < |paras| && k < 10 ==> !QualifiesAsTitle(paras[k])
  {
    var scanned := Take(paras, 10);
    var r := FirstWhere(scanned, QualifiesAsTitle, 0);
    assert forall k :: 0 <= k < |paras| && k < 10 ==> scanned[k] == paras[k];
    r
  }

  /** The paragraph with the text of its first run replaced (`first_run.text = title`). */
  function WithFirstRunText(p: Paragraph, text: string): Paragraph
    requires p.runs != []
  {
    p.(runs := p.runs[0 := p.runs[0].(text := text)])
  }

  /** The paragraph with a bold run appended (`add_run(title).bold = True`). */
  function WithBoldRun(p: Paragraph, text: string): Paragraph {
    p.(runs := p.runs + [Run(text, None, None, true)])
  }

  /** The paragraph `match_job_title` edits, when it edits one. */
  function TitleSlot(paras: seq<Paragraph>): nat {
    if TitleIndex(paras).Some? then TitleIndex(paras).value else 0
  }

  /**
   * The paragraphs after `match_job_title(target)`, or `None` when it
   * returns `False` and changes nothing.
   */
  function Retitled(paras: seq<Paragraph>, target: string): (r: Option<seq<Paragraph>>)
    ensures r.Some? <==>
      target != "" && target != JdParser.UnknownTitle &&
      (TitleIndex(paras).Some? || (paras != [] && Strip(ParaText(paras[0])) == ""))
    ensures r.Some? ==> |r.value| == |paras| && TitleSlot(paras) < 10
    ensures r.Some? ==> forall j :: 0 <= j < |paras| && j != TitleSlot(paras) ==> r.value[j] == paras[j]
  {
    if target == "" || target == JdParser.UnknownTitle then None
    else match TitleIndex(paras)
      case Some(i) => Some(paras[i := WithFirstRunText(paras[i], target)])
      case None =>
        if paras != [] && Strip(ParaText(paras[0])) == "" then Some(paras[0 := WithBoldRun(paras[0], target)])
        else None
  }

  /**
   * What the edited paragraph then reads: the title in place of its first
   * run's text, or, in the blank-first-paragraph fallback, the old (blank)
   * text followed by the title.  Either way it contains the title.
   */
  lemma RetitledText(paras: seq<Paragraph>, target: string)
    requires Retitled(paras, target).Some?
    ensures var p := paras[TitleSlot(paras)];
      var q := Retitled(paras, target).value[TitleSlot(paras)];
      q.style == p.style &&
      (TitleIndex(paras).Some? ==> ParaText(q) == target + RunsText(p.runs[1..])) &&
      (TitleIndex(paras).None? ==> IsBlank(ParaText(p)) && ParaText(q) == ParaText(p) + target)
    ensures Contains(ParaText(Retitled(paras, target).value[TitleSlot(paras)]), target)
  {
    var k := TitleSlot(paras);
    var p := paras[k];
    var q := Retitled(paras, target).value[k];
    if TitleIndex(paras).Some? {
      assert q.runs == [p.runs[0].(text := target)] + p.runs[1..];
      RunsTextAppend([p.runs[0].(text := target)], p.runs[1..]);
      assert OccursAt(ParaText(q), target, 0);
    } else {
      StripEmptyIffBlank(ParaText(p));
      RunsTextAppend(p.runs, [Run(target, None, None, true)]);
      assert OccursAt(ParaText(q), target, |ParaText(p)|);
    }
  }

  /**
   * With any size a Word document can hold (at most 1638 points, 3276
   * half-points) the size test never passes, so only a bold first run
   * qualifies.
   */
  lemma OnlyBoldQualifies(p: Paragraph)
    requires p.runs != [] && (p.runs[0].halfPoints.Some? ==> p.runs[0].halfPoints.value <= 3276)
    ensures QualifiesAsTitle(p) <==> p.runs[0].bold
  {
  }

  /** Paragraphs from the eleventh on are never looked at. */
  lemma TitleScanStopsAtTen(paras: seq<Paragraph>, more: seq<Paragraph>, target: string)
    requires |paras| >= 10
    ensures Retitled(paras + more, target).Some? == Retitled(paras, target).Some?
    ensures TitleSlot(paras + more) == TitleSlot(paras)
  {
    assert Take(paras + more, 10) == Take(paras, 10);
  }

  // ---------------------------------------------------------------------
  // Finding a section among alternatives
  // ---------------------------------------------------------------------

  /**
   * The index left by `for alt in alts: idx = find(alt); if idx: break`,
   * starting at alternative `k`: the first index found that is true in
   * Python's sense, or else the last alternative's result.
   */
  function AlternativeIndexFrom(paras: seq<Paragraph>, alts: seq<string>, k: nat): (r: Option<nat>)
    requires k < |alts|
    ensures Truthy(r) ==> exists j :: (k <= j < |alts| && r == SectionIndex(paras, alts[j]) &&
      forall i :: k <= i < j ==> !Truthy(SectionIndex(paras, alts[i])))
    ensures !Truthy(r) ==> (r == SectionIndex(paras, alts[|alts| - 1]) &&
      forall i :: k <= i < |alts| ==> !Truthy(SectionIndex(paras, alts[i])))
    decreases |alts| - k
  {
    var idx := SectionIndex(paras, alts[k]);
    if Truthy(idx) || k == |alts| - 1 then idx else AlternativeIndexFrom(paras, alts, k + 1)
  }

  function AlternativeIndex(paras: seq<Paragraph>, alts: seq<string>): (r: Option<nat>)
    requires alts != []
  {
    AlternativeIndexFrom(paras, alts, 0)
  }

  /** The alternatives loop of `inject_verbatim_keywords` and `add_skills_section_with_keywords`. */
  method FindAlternative(doc: Document, alts: seq<string>) returns (idx: Option<nat>)
    requires alts != []
    ensures idx == AlternativeIndex(doc.paragraphs, alts)
  {
    idx := None;
    var k := 0;
    while k < |alts|
      invariant 0 <= k <= |alts|
      invariant AlternativeIndex(doc.paragraphs, alts) ==
        if k == 0 then AlternativeIndexFrom(doc.paragraphs, alts, 0)
        else if k < |alts| then AlternativeIndexFrom(doc.paragraphs, alts, k)
        else idx
      invariant 0 < k < |alts| ==> !Truthy(idx)
    {
      idx := FindSectionInDocx(doc, alts[k]);
      if Truthy(idx) {
        break;
      }
      k := k + 1;
    }
  }

  // ---------------------------------------------------------------------
  // inject_verbatim_keywords
  // ---------------------------------------------------------------------

  /** The section index `inject_verbatim_keywords(name)` works with. */
  function InjectionIndex(paras: seq<Paragraph>, name: string): Option<nat> {
    if SectionIndex(paras, name).Some? then SectionIndex(paras, name)
    else AlternativeIndex(paras, ExperienceAlternatives)
  }

  /** `'• ' + phrase` as a `List Bullet` paragraph, for each phrase. */
  function PhraseBullets(phrases: seq<string>): (r: seq<Paragraph>)
    ensures |r| == |phrases|
    ensures forall i :: 0 <= i < |phrases| ==> r[i] == BulletParagraph("• " + phrases[i])
  {
    seq(|phrases|, i requires 0 <= i < |phrases| => BulletParagraph("• " + phrases[i]))
  }

  /**
   * The loop of `inject_verbatim_keywords`: each paragraph in turn is
   * inserted before index `at` when `at` is inside the (growing) list.
   */
  function InsertedEach(paras: seq<Paragraph>, at: nat, bs: seq<Paragraph>): seq<Paragraph>
    decreases |bs|
  {
    if bs == [] then paras
    else
      var p := InsertedEach(paras, at, bs[..|bs| - 1]);
      if at < |p| then p[..at] + [bs[|bs| - 1]] + p[at..] else p
  }

  function Reversed<T>(xs: seq<T>): (r: seq<T>)
    ensures |r| == |xs|
    ensures forall i :: 0 <= i < |xs| ==> r[i] == xs[|xs| - 1 - i]
  {
    seq(|xs|, i requires 0 <= i < |xs| => xs[|xs| - 1 - i])
  }

  /**
   * Inserting one after another before the same index leaves the inserted
   * paragraphs in reverse order right at that index; past the end nothing
   * is inserted.
   */
  lemma {:induction false} InsertedEachReverses(paras: seq<Paragraph>, at: nat, bs: seq<Paragraph>)
    ensures at < |paras| ==> InsertedEach(paras, at, bs) == paras[..at] + Reversed(bs) + paras[at..]
    ensures at >= |paras| ==> InsertedEach(paras, at, bs) == paras
    decreases |bs|
  {
    if bs != [] {
      var init := bs[..|bs| - 1];
      var b := bs[|bs| - 1];
      InsertedEachReverses(paras, at, init);
      if at < |paras| {
        var p := InsertedEach(paras, at, init);
        assert p[..at] == paras[..at];
        assert p[at..] == Reversed(init) + paras[at..];
        assert [b] + Reversed(init) == Reversed(bs);
      }
    }
  }

  /**
   * The paragraphs after `inject_verbatim_keywords(name)`, or `None` when
   * it returns `False`: no phrases, or no section found.  At most three
   * phrase bullets follow the section header directly, in reverse order;
   * a header that is the last paragraph gets none.
   */
  function VerbatimInjected(paras: seq<Paragraph>, name: string, phrases: seq<string>): (r: Option<seq<Paragraph>>)
    ensures r.Some? <==> phrases != [] && InjectionIndex(paras, name).Some?
    ensures r.Some? && InjectionIndex(paras, name).value + 1 < |paras| ==>
      var at := InjectionIndex(paras, name).value + 1;
      r.value == paras[..at] + Reversed(PhraseBullets(Take(phrases, 3))) + paras[at..]
    ensures r.Some? && InjectionIndex(paras, name).value + 1 >= |paras| ==> r.value == paras
  {
    if phrases == [] then None
    else match InjectionIndex(paras, name)
      case None => None
      case Some(idx) =>
        InsertedEachReverses(paras, idx + 1, PhraseBullets(Take(phrases, 3)));
        Some(InsertedEach(paras, idx + 1, PhraseBullets(Take(phrases, 3))))
  }

  /** A header found at index 0 by an alternative name is passed over, unless it is the last alternative. */
  lemma ExperienceAtZeroSkipped(paras: seq<Paragraph>)
    requires SectionIndex(paras, "PROFESSIONAL EXPERIENCE").None?
    requires SectionIndex(paras, "EXPERIENCE") == Some(0)
    requires SectionIndex(paras, "EMPLOYMENT").None?
    requires !Truthy(SectionIndex(paras, "WORK EXPERIENCE"))
    ensures InjectionIndex(paras, "PROFESSIONAL EXPERIENCE").None?
  {
    assert ExperienceAlternatives[2] == "EMPLOYMENT";
  }

  // ---------------------------------------------------------------------
  // add_skills_section_with_keywords
  // ---------------------------------------------------------------------

  /** The distinct skills of the three lists (`set(required + preferred + technical)`). */
  function SkillSet(jd: JdParser.JdAnalysis): set<string> {
    Elems(jd.requiredSkills + jd.preferredSkills + jd.technicalSkills)
  }

  /** The text written under the skills header: at most 15 skills joined by `' • '`. */
  function SkillsText(order: seq<string>): string {
    Join(Take(order, 15), " • ")
  }

  /** The index of the skills header, after `add_heading('SKILLS')` when there was none. */
  function SkillsHeaderIndex(paras: seq<Paragraph>): nat {
    match AlternativeIndex(paras, SkillsAlternatives)
    case Some(i) => i
    case None => |paras|
  }

  /**
   * The paragraphs after `add_skills_section_with_keywords` with the skills
   * listed in `order`: a `SKILLS` heading is appended when no header is
   * found, and the paragraph after the header is replaced by the skills
   * text (keeping its style), or the text is appended when the header is
   * last.
   */
  function WithSkills(paras: seq<Paragraph>, order: seq<string>): (r: seq<Paragraph>)
    ensures |paras| <= |r| <= |paras| + 2
    ensures SkillsHeaderIndex(paras) + 1 < |r|
    ensures ParaText(r[SkillsHeaderIndex(paras) + 1]) == SkillsText(order)
    ensures forall j :: 0 <= j < |paras| && j != SkillsHeaderIndex(paras) + 1 ==> r[j] == paras[j]
    ensures AlternativeIndex(paras, SkillsAlternatives).None? ==>
      r[|paras|] == Heading("SKILLS") && |r| == |paras| + 2
  {
    var text := SkillsText(order);
    var ps := if AlternativeIndex(paras, SkillsAlternatives).None? then paras + [Heading("SKILLS")] else paras;
    var at := SkillsHeaderIndex(paras) + 1;
    if at < |ps| then ps[at := Rewritten(ps[at].style, text)]
    else ps + [Rewritten(None, text)]
  }

  /** The skills written are at most 15, distinct, and all from the job description. */
  lemma SkillsTextSpec(jd: JdParser.JdAnalysis, order: seq<string>)
    requires Enumerates(order, SkillSet(jd))
    ensures |Take(order, 15)| <= 15 && Distinct(Take(order, 15))
    ensures |Take(order, 15)| == Min(15, |SkillSet(jd)|)
    ensures forall s :: s in Take(order, 15) ==> s in jd.requiredSkills || s in jd.preferredSkills || s in jd.technicalSkills
  {
    EnumerationSize(order, SkillSet(jd));
    var t := Take(order, 15);
    forall s | s in t
      ensures s in jd.requiredSkills || s in jd.preferredSkills || s in jd.technicalSkills
    {
      var i :| 0 <= i < |t| && t[i] == s;
      assert t == order[..|t|];
      assert order[i] == s;
      assert s in Elems(order);
      assert s in jd.requiredSkills + jd.preferredSkills + jd.technicalSkills;
    }
  }

  // ---------------------------------------------------------------------
  // add_values_alignment_section, add_location_logistics
  // ---------------------------------------------------------------------

  /** One bullet per value, `'• ' + value + ': Demonstrated ...'`. */
  function ValueBullets(values: seq<string>): (r: seq<Paragraph>)
    ensures |r| == |values|
    ensures forall i :: 0 <= i < |values| ==> r[i] == BulletParagraph("• " + values[i] + ValuesSuffix)
  {
    seq(|values|, i requires 0 <= i < |values| => BulletParagraph("• " + values[i] + ValuesSuffix))
  }

  /**
   * The paragraphs after `add_values_alignment_section`, or `None` when it
   * returns `False`: no values, or a paragraph naming `VALUES` at an index
   * other than 0.  The section is appended: a heading and at most 5 bullets.
   */
  function ValuesAdded(paras: seq<Paragraph>, values: seq<string>): (r: Option<seq<Paragraph>>)
    ensures r.Some? <==> values != [] && !Truthy(SectionIndex(paras, "VALUES"))
    ensures r.Some? ==> paras <= r.value && |r.value| == |paras| + 1 + Min(5, |values|)
    ensures r.Some? ==> r.value[|paras|] == Heading("VALUES ALIGNMENT")
    ensures r.Some? ==> forall i :: 0 <= i < Min(5, |values|) ==>
      ParaText(r.value[|paras| + 1 + i]) == "• " + values[i] + ValuesSuffix
  {
    if values == [] || Truthy(SectionIndex(paras, "VALUES")) then None
    else
      var bullets := ValueBullets(Take(values, 5));
      AppendedSection(paras, Heading("VALUES ALIGNMENT"), bullets);
      Some(paras + [Heading("VALUES ALIGNMENT")] + bullets)
  }

  /** Where the heading and the items of a section appended to `paras` land. */
  lemma AppendedSection<T>(paras: seq<T>, heading: T, items: seq<T>)
    ensures var r := paras + [heading] + items;
      paras <= r && |r| == |paras| + 1 + |items| && r[|paras|] == heading &&
      forall i :: 0 <= i < |items| ==> r[|paras| + 1 + i] == items[i]
  {
  }

  /** A values header as the very first paragraph does not stop a second section being added. */
  lemma ValuesHeaderFirstNotSeen(paras: seq<Paragraph>, values: seq<string>)
    requires values != [] && paras != [] && NamesSection(paras, "VALUES", 0)
    ensures ValuesAdded(paras, values).Some?
  {
  }

  /**
   * The paragraphs after `add_location_logistics(location, rightToWork)`
   * (an empty string standing for a missing argument), or `None` when it
   * returns `False`: both missing, or a paragraph naming `ADDITIONAL` at an
   * index other than 0.  The heading comes first, then one bullet per
   * given argument.
   */
  function LogisticsAdded(paras: seq<Paragraph>, location: string, rightToWork: string): (r: Option<seq<Paragraph>>)
    ensures r.Some? <==> (location != "" || rightToWork != "") && !Truthy(SectionIndex(paras, "ADDITIONAL"))
    ensures r.Some? ==> |r.value| == |paras| + 1 + (if location != "" then 1 else 0) + (if rightToWork != "" then 1 else 0)
    ensures r.Some? ==> paras <= r.value && r.value[|paras|] == Heading("ADDITIONAL INFORMATION")
    ensures r.Some? && location != "" ==> |r.value| > |paras| + 1 && ParaText(r.value[|paras| + 1]) == "• Available for " + location
    ensures r.Some? && rightToWork != "" ==> |r.value| > |paras| + 1 && ParaText(r.value[|r.value| - 1]) == "• " + rightToWork
  {
    if location == "" && rightToWork == "" then None
    else if Truthy(SectionIndex(paras, "ADDITIONAL")) then None
    else
      var withLocation := if location != "" then [BulletParagraph("• Available for " + location)] else [];
      var withRight := if rightToWork != "" then [BulletParagraph("• " + rightToWork)] else [];
      Some(paras + [Heading("ADDITIONAL INFORMATION")] + withLocation + withRight)
  }

  // ---------------------------------------------------------------------
  // optimize_keyword_density
  // ---------------------------------------------------------------------

  /** The lowercased required skills, technical skills and verbatim phrases, as a set. */
  function KeywordSet(jd: JdParser.JdAnalysis): set<string> {
    (set kw | kw in jd.requiredSkills :: Lower(kw)) +
    (set kw | kw in jd.technicalSkills :: Lower(kw)) +
    (set p | p in jd.verbatimPhrases :: Lower(p))
  }

  /** The CV text the density is measured on: paragraph texts joined by newlines, lowercased. */
  function CvTextLower(paras: seq<Paragraph>): string {
    Lower(Join(ParagraphTexts(paras), "\n"))
  }

  /** What `optimize_keyword_density` reports. */
  datatype DensityReport = DensityReport(percentage: real, matched: nat, total: nat, missing: seq<string>)

  /** The test `keyword in cv_text`. */
  function PresentIn(cvLower: string): string -> bool {
    kw => Contains(cvLower, kw)
  }

  /** The report for the keywords in the order the set iterates them. */
  function DensityOf(cvLower: string, order: seq<string>): DensityReport {
    var present := PresentIn(cvLower);
    var matched := |Filter(order, present)|;
    DensityReport(Percentage(matched, |order|), matched, |order|, Take(Reject(order, present), 10))
  }

  /**
   * Every keyword is either contained in the CV text or missing; the
   * counts add up to the number of distinct keywords; at most 10 missing
   * ones are reported, all genuinely absent.
   */
  lemma DensityCounts(cvLower: string, all: set<string>, order: seq<string>)
    requires Enumerates(order, all)
    ensures DensityOf(cvLower, order).total == |all|
    ensures DensityOf(cvLower, order).matched == |set kw | kw in all && Contains(cvLower, kw)|
    ensures DensityOf(cvLower, order).percentage == Percentage(DensityOf(cvLower, order).matched, |all|)
  {
    var present := PresentIn(cvLower);
    EnumerationSize(order, all);
    FilterMembers(order, present);
    FilterDistinct(order, present);
    assert Elems(Filter(order, present)) == set kw | kw in all && Contains(cvLower, kw);
    EnumerationSize(Filter(order, present), set kw | kw in all && Contains(cvLower, kw));
  }

  /** The reported missing keywords: at most 10, all absent, and all of them when fewer than 10 are missing. */
  lemma DensityMissing(cvLower: string, all: set<string>, order: seq<string>)
    requires Enumerates(order, all)
    ensures var r := DensityOf(cvLower, order);
      |r.missing| == Min(10, r.total - r.matched) &&
      (forall m :: m in r.missing ==> m in all && !Contains(cvLower, m))
    ensures var r := DensityOf(cvLower, order);
      r.total - r.matched < 10 ==> forall kw :: kw in all && !Contains(cvLower, kw) ==> kw in r.missing
  {
    var present := PresentIn(cvLower);
    var missing := Reject(order, present);
    FilterMembers(order, present);
    FilterRejectSplit(order, present);
    assert forall kw :: present(kw) == Contains(cvLower, kw);
    forall m | m in Take(missing, 10)
      ensures m in missing
    {
      var i :| 0 <= i < |Take(missing, 10)| && Take(missing, 10)[i] == m;
      assert Take(missing, 10) == missing[..|Take(missing, 10)|];
      assert missing[i] == m;
    }
  }

  /** The paragraphs after `match_job_title`: retitled, or unchanged when it does nothing. */
  function TitleStage(paras: seq<Paragraph>, title: string): seq<Paragraph> {
    var t := Retitled(paras, title); if t.Some? then t.value else paras
  }

  /** The paragraphs after `inject_verbatim_keywords(name)`. */
  function InjectionStage(paras: seq<Paragraph>, name: string, phrases: seq<string>): seq<Paragraph> {
    var v := VerbatimInjected(paras, name, phrases); if v.Some? then v.value else paras
  }

  /** The paragraphs after `add_skills_section_with_keywords`, over the skill set's iteration order. */
  function SkillsStage(paras: seq<Paragraph>, jd: JdParser.JdAnalysis, skillOrder: seq<string>): seq<Paragraph> {
    if SkillSet(jd) != {} then WithSkills(paras, skillOrder) else paras
  }

  /** The paragraphs after `add_values_alignment_section`. */
  function ValuesStage(paras: seq<Paragraph>, values: seq<string>): seq<Paragraph> {
    var a := ValuesAdded(paras, values); if a.Some? then a.value else paras
  }

  /** The paragraphs after `add_location_logistics`. */
  function LogisticsStage(paras: seq<Paragraph>, location: string, rightToWork: string): seq<Paragraph> {
    var l := LogisticsAdded(paras, location, rightToWork); if l.Some? then l.value else paras
  }

  /**
   * The paragraph lists `generate_tailored_cv` passes through: the start,
   * then the result of the title match, the keyword injection under the
   * default section, the skills section, the values section and the
   * logistics section, in that order.
   */
  function TailoringStages(paras: seq<Paragraph>, jd: JdParser.JdAnalysis, location: string, rightToWork: string,
                           skillOrder: seq<string>): (r: seq<seq<Paragraph>>)
    ensures |r| == 6 && r[0] == paras
  {
    var s1 := TitleStage(paras, jd.jobTitle);
    var s2 := InjectionStage(s1, DefaultExperienceSection, jd.verbatimPhrases);
    var s3 := SkillsStage(s2, jd, skillOrder);
    var s4 := ValuesStage(s3, jd.companyValues);
    var s5 := LogisticsStage(s4, location, rightToWork);
    [paras, s1, s2, s3, s4, s5]
  }

  /**
   * The operations `generate_tailored_cv` records: a flag per operation,
   * true exactly when that operation changed something (or, for the
   * placeholder restructuring, when there are responsibilities), and the
   * keyword report.
   */
  function TailoringOperations(stages: seq<seq<Paragraph>>, jd: JdParser.JdAnalysis, location: string, rightToWork: string,
                               report: DensityReport): map<string, Outcome>
    requires |stages| == 6
  {
    map[
      "title_matched" := Flag(Retitled(stages[0], jd.jobTitle).Some?),
      "keywords_injected" := Flag(VerbatimInjected(stages[1], DefaultExperienceSection, jd.verbatimPhrases).Some?),
      "skills_added" := Flag(SkillSet(jd) != {}),
      "values_added" := Flag(ValuesAdded(stages[3], jd.companyValues).Some?),
      "logistics_added" := Flag(LogisticsAdded(stages[4], location, rightToWork).Some?),
      "structure_mirrored" := Flag(jd.structure.responsibilities != [])]["keyword_match" := Report(report)]
  }

  /**
   * The record holds the keyword report under "keyword_match", and every
   * other entry is a flag: the counts the operations recorded on the way
   * do not survive.
   */
  lemma TailoringOperationsAreFlags(stages: seq<seq<Paragraph>>, jd: JdParser.JdAnalysis, location: string,
                                    rightToWork: string, report: DensityReport)
    requires |stages| == 6
    ensures var ops := TailoringOperations(stages, jd, location, rightToWork, report);
      "keyword_match" in ops && ops["keyword_match"] == Report(report) &&
      "title_matched" in ops && "skills_added" in ops && "structure_mirrored" in ops &&
      forall k :: k in ops && k != "keyword_match" ==> ops[k].Flag?
  {
  }

  // ---------------------------------------------------------------------
  // The engine
  // ---------------------------------------------------------------------

  /**
   * A tailoring engine: the analysis of the job description, the base CV
   * as loaded, the copy being edited, and the record of what was done.
   * Loading and saving the document files are not part of this model.
   */
  class CvTailoringEngine {
    const jd: JdParser.JdAnalysis
    const baseCv: Document
    var tailoredCv: Document
    var operations: map<string, Outcome>

    constructor(baseCv: Document, jd: JdParser.JdAnalysis)
      ensures this.baseCv == baseCv && this.jd == jd
      ensures tailoredCv == baseCv && operations == map[]
    {
      this.jd := jd;
      this.baseCv := baseCv;
      tailoredCv := baseCv;
      operations := map[];
    }

    /** `match_job_title`: put the job title into the first title-like paragraph. */
    method MatchJobTitle() returns (matched: bool)
      modifies this
      ensures matched == Retitled(old(tailoredCv.paragraphs), jd.jobTitle).Some?
      ensures tailoredCv == if matched then old(tailoredCv).(paragraphs := Retitled(old(tailoredCv.paragraphs), jd.jobTitle).value) else old(tailoredCv)
      ensures operations == if matched then old(operations)["title_matched" := Flag(true)] else old(operations)
      ensures tailoredCv == old(tailoredCv).(paragraphs := TitleStage(old(tailoredCv.paragraphs), jd.jobTitle))
    {
      var target := jd.jobTitle;
      if target == "" || target == JdParser.UnknownTitle {
        return false;
      }
      var paras := tailoredCv.paragraphs;
      var scanned := Take(paras, 10);
      var i := 0;
      while i < |scanned|
        invariant 0 <= i <= |scanned|
        invariant FirstWhere(scanned, QualifiesAsTitle, 0) == FirstWhere(scanned, QualifiesAsTitle, i)
      {
        var paragraph := scanned[i];
        if paragraph.runs != [] {
          var firstRun := paragraph.runs[0];
          if firstRun.halfPoints.Some? && firstRun.halfPoints.value > 2 * Pt12Emu {
            tailoredCv := tailoredCv.(paragraphs := paras[i := WithFirstRunText(paragraph, target)]);
            operations := operations["title_matched" := Flag(true)];
            return true;
          } else if firstRun.bold {
            tailoredCv := tailoredCv.(paragraphs := paras[i := WithFirstRunText(paragraph, target)]);
            operations := operations["title_matched" := Flag(true)];
            return true;
          }
        }
        i := i + 1;
      }
      if |paras| > 0 {
        var firstPara := paras[0];
        if Strip(ParaText(firstPara)) == "" {
          tailoredCv := tailoredCv.(paragraphs := paras[0 := WithBoldRun(firstPara, target)]);
          operations := operations["title_matched" := Flag(true)];
          return true;
        }
      }
      return false;
    }

    /** `inject_verbatim_keywords(sectionName)`: up to three phrase bullets under the experience header. */
    method InjectVerbatimKeywords(sectionName: string) returns (injected: bool)
      modifies this
      ensures injected == VerbatimInjected(old(tailoredCv.paragraphs), sectionName, jd.verbatimPhrases).Some?
      ensures tailoredCv == if injected then old(tailoredCv).(paragraphs := VerbatimInjected(old(tailoredCv.paragraphs), sectionName, jd.verbatimPhrases).value) else old(tailoredCv)
      ensures operations == if injected then old(operations)["keywords_injected" := Count(|Take(jd.verbatimPhrases, 3)|)] else old(operations)
      ensures tailoredCv == old(tailoredCv).(paragraphs := InjectionStage(old(tailoredCv.paragraphs), sectionName, jd.verbatimPhrases))
    {
      var phrases := jd.verbatimPhrases;
      if phrases == [] {
        return false;
      }
      var sectionIdx := FindSectionInDocx(tailoredCv, sectionName);
      if sectionIdx.None? {
        sectionIdx := FindAlternative(tailoredCv, ExperienceAlternatives);
      }
      if sectionIdx.None? {
        return false;
      }
      var toAdd := Take(phrases, 3);
      InsertBullets(sectionIdx.value + 1, toAdd);
      operations := operations["keywords_injected" := Count(|toAdd|)];
      return true;
    }

    /** The insertion loop of `inject_verbatim_keywords`: each phrase bullet in turn before paragraph `at`. */
    method InsertBullets(at: nat, toAdd: seq<string>)
      modifies this
      ensures tailoredCv == old(tailoredCv).(paragraphs := InsertedEach(old(tailoredCv.paragraphs), at, PhraseBullets(toAdd)))
      ensures operations == old(operations)
    {
      ghost var start := tailoredCv.paragraphs;
      ghost var bullets := PhraseBullets(toAdd);
      for k := 0 to |toAdd|
        invariant tailoredCv == old(tailoredCv).(paragraphs := InsertedEach(start, at, bullets[..k]))
        invariant operations == old(operations)
      {
        var paras := tailoredCv.paragraphs;
        if at < |paras| {
          var newPara := BulletParagraph("• " + toAdd[k]);
          tailoredCv := tailoredCv.(paragraphs := paras[..at] + [newPara] + paras[at..]);
        }
        assert bullets[..k + 1][..k] == bullets[..k];
      }
      assert bullets[..|toAdd|] == bullets;
    }

    /** The bullet loop of `add_values_alignment_section`. */
    method AppendValueBullets(toAdd: seq<string>)
      modifies this
      ensures tailoredCv == old(tailoredCv).(paragraphs := old(tailoredCv.paragraphs) + ValueBullets(toAdd))
      ensures operations == old(operations)
    {
      ghost var start := tailoredCv.paragraphs;
      for k := 0 to |toAdd|
        invariant tailoredCv == old(tailoredCv).(paragraphs := start + ValueBullets(toAdd[..k]))
        invariant operations == old(operations)
      {
        var bullet := "• " + toAdd[k] + ValuesSuffix;
        tailoredCv := tailoredCv.(paragraphs := tailoredCv.paragraphs + [BulletParagraph(bullet)]);
        assert ValueBullets(toAdd[..k + 1]) == ValueBullets(toAdd[..k]) + [BulletParagraph(bullet)];
      }
      assert toAdd[..|toAdd|] == toAdd;
    }

    /** `add_skills_section_with_keywords`: the distinct skills, in the set's iteration order `order`, under a skills header. */
    method AddSkillsSectionWithKeywords() returns (added: bool, ghost order: seq<string>)
      modifies this
      ensures Enumerates(order, SkillSet(jd))
      ensures added <==> SkillSet(jd) != {}
      ensures tailoredCv == if added then old(tailoredCv).(paragraphs := WithSkills(old(tailoredCv.paragraphs), order)) else old(tailoredCv)
      ensures operations == if added then old(operations)["skills_added" := Count(|SkillSet(jd)|)] else old(operations)
      ensures tailoredCv == old(tailoredCv).(paragraphs := SkillsStage(old(tailoredCv.paragraphs), jd, order))
    {
      var allSkills := SetToSeq(Elems(jd.requiredSkills + jd.preferredSkills + jd.technicalSkills));
      order := allSkills;
      EnumerationSize(allSkills, SkillSet(jd));
      if allSkills == [] {
        return false, order;
      }
      ghost var paras0 := tailoredCv.paragraphs;
      var skillsSectionIdx := FindAlternative(tailoredCv, SkillsAlternatives);
      var idx: nat;
      if skillsSectionIdx.None? {
        tailoredCv := tailoredCv.(paragraphs := tailoredCv.paragraphs + [Heading("SKILLS")]);
        idx := |tailoredCv.paragraphs| - 1;
      } else {
        idx := skillsSectionIdx.value;
      }
      var skillsText := Join(Take(allSkills, 15), " • ");
      var paras := tailoredCv.paragraphs;
      if idx + 1 < |paras| {
        tailoredCv := tailoredCv.(paragraphs := paras[idx + 1 := Paragraph([PlainRun(skillsText)], paras[idx + 1].style)]);
      } else {
        tailoredCv := tailoredCv.(paragraphs := paras + [Paragraph([PlainRun(skillsText)], None)]);
      }
      operations := operations["skills_added" := Count(|allSkills|)];
      return true, order;
    }

    /** `add_values_alignment_section`. */
    method AddValuesAlignmentSection() returns (added: bool)
      modifies this
      ensures added == ValuesAdded(old(tailoredCv.paragraphs), jd.companyValues).Some?
      ensures tailoredCv == if added then old(tailoredCv).(paragraphs := ValuesAdded(old(tailoredCv.paragraphs), jd.companyValues).value) else old(tailoredCv)
      ensures operations == if added then old(operations)["values_added" := Count(|jd.companyValues|)] else old(operations)
      ensures tailoredCv == old(tailoredCv).(paragraphs := ValuesStage(old(tailoredCv.paragraphs), jd.companyValues))
    {
      var values := jd.companyValues;
      if values == [] {
        return false;
      }
      var found := FindSectionInDocx(tailoredCv, "VALUES");
      if found.Some? && found.value != 0 {
        return false;
      }
      tailoredCv := tailoredCv.(paragraphs := tailoredCv.paragraphs + [Heading("VALUES ALIGNMENT")]);
      AppendValueBullets(Take(values, 5));
      operations := operations["values_added" := Count(|values|)];
      return true;
    }

    /** `add_location_logistics(location, rightToWork)`, with `""` for a missing argument. */
    method AddLocationLogistics(location: string, rightToWork: string) returns (added: bool)
      modifies this
      ensures added == LogisticsAdded(old(tailoredCv.paragraphs), location, rightToWork).Some?
      ensures tailoredCv == if added then old(tailoredCv).(paragraphs := LogisticsAdded(old(tailoredCv.paragraphs), location, rightToWork).value) else old(tailoredCv)
      ensures operations == if added then old(operations)["logistics_added" := Flag(true)] else old(operations)
      ensures tailoredCv == old(tailoredCv).(paragraphs := LogisticsStage(old(tailoredCv.paragraphs), location, rightToWork))
    {
      if location == "" && rightToWork == "" {
        return false;
      }
      var found := FindSectionInDocx(tailoredCv, "ADDITIONAL");
      if found.Some? && found.value != 0 {
        return false;
      }
      tailoredCv := tailoredCv.(paragraphs := tailoredCv.paragraphs + [Heading("ADDITIONAL INFORMATION")]);
      if location != "" {
        tailoredCv := tailoredCv.(paragraphs := tailoredCv.paragraphs + [BulletParagraph("• Available for " + location)]);
      }
      if rightToWork != "" {
        tailoredCv := tailoredCv.(paragraphs := tailoredCv.paragraphs + [BulletParagraph("• " + rightToWork)]);
      }
      operations := operations["logistics_added" := Flag(true)];
      return true;
    }

    /**
     * `restructure_experience_section`: a placeholder that edits nothing; it
     * records the flag and succeeds exactly when the analysis lists
     * responsibilities.
     */
    method RestructureExperienceSection() returns (mirrored: bool)
      modifies this
      ensures mirrored <==> jd.structure.responsibilities != []
      ensures tailoredCv == old(tailoredCv)
      ensures operations == if mirrored then old(operations)["structure_mirrored" := Flag(true)] else old(operations)
    {
      if jd.structure.responsibilities == [] {
        return false;
      }
      operations := operations["structure_mirrored" := Flag(true)];
      return true;
    }

    /**
     * `generate_tailored_cv` up to the save: the six operations in order,
     * then the keyword measure of the result.  The dict of the six results
     * replaces `operations`, so the counts the operations recorded give way
     * to their flags.
     */
    method GenerateTailoredCv(outputPath: string, location: string, rightToWork: string)
      returns (r: TailoringResult, ghost skillOrder: seq<string>, ghost keywordOrder: seq<string>)
      modifies this
      ensures Enumerates(skillOrder, SkillSet(jd)) && Enumerates(keywordOrder, KeywordSet(jd))
      ensures var stages := TailoringStages(old(tailoredCv.paragraphs), jd, location, rightToWork, skillOrder);
        tailoredCv == old(tailoredCv).(paragraphs := stages[5]) &&
        operations == TailoringOperations(stages, jd, location, rightToWork, DensityOf(CvTextLower(stages[5]), keywordOrder)) &&
        r == TailoringResult(true, outputPath, operations, DensityOf(CvTextLower(stages[5]), keywordOrder).percentage)
    {
      var titleMatched := MatchJobTitle();
      var keywordsInjected := InjectVerbatimKeywords(DefaultExperienceSection);
      var skillsAdded;
      skillsAdded, skillOrder := AddSkillsSectionWithKeywords();
      var valuesAdded := AddValuesAlignmentSection();
      var logisticsAdded := AddLocationLogistics(location, rightToWork);
      var structureMirrored := RestructureExperienceSection();
      operations := map[
        "title_matched" := Flag(titleMatched),
        "keywords_injected" := Flag(keywordsInjected),
        "skills_added" := Flag(skillsAdded),
        "values_added" := Flag(valuesAdded),
        "logistics_added" := Flag(logisticsAdded),
        "structure_mirrored" := Flag(structureMirrored)];
      ghost var flags := operations;
      var keywordAnalysis;
      keywordAnalysis, keywordOrder := OptimizeKeywordDensity();
      operations := operations["keyword_match" := Report(keywordAnalysis)];
      assert operations == flags["keyword_match" := Report(keywordAnalysis)];
      r := TailoringResult(true, outputPath, operations, keywordAnalysis.percentage);
    }

    /** `optimize_keyword_density`: the keywords in the set's iteration order `order`, measured against the tailored CV. */
    method OptimizeKeywordDensity() returns (r: DensityReport, ghost order: seq<string>)
      ensures Enumerates(order, KeywordSet(jd))
      ensures r == DensityOf(CvTextLower(tailoredCv.paragraphs), order)
    {
      var cvText := ExtractDocxText(tailoredCv);
      var cvLower := Lower(cvText);
      var allKeywords := KeywordSet(jd);
      var keywords := SetToSeq(allKeywords);
      order := keywords;
      var present := PresentIn(cvLower);
      var matches := |Filter(keywords, present)|;
      var total := |keywords|;
      var percentage := if total > 0 then (matches as real) / (total as real) * 100.0 else 0.0;
      var missing := Reject(keywords, present);
      r := DensityReport(percentage, matches, total, Take(missing, 10));
    }
  }
}
