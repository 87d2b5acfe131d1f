/**
 * A snapshot of a python-docx `Document` and the scan helpers of
 * `src/utils/docx_handler.py` over it.
 *
 * Font sizes are kept in half-points, the unit a DOCX file stores them in:
 * a size of `h` half-points is `h / 2` points (python-docx's `.pt`) and
 * `h * 6350` EMU (python-docx's `Length`).
 */
module Docx {
  import opened Wrappers
  import opened TextUtil

  /** A run of text with its directly set formatting (`None` when not set). */
  datatype Run = Run(text: string, font: Option<string>, halfPoints: Option<nat>, bold: bool)

  /** A paragraph: its runs and its style name (`None` for the default style). */
  datatype Paragraph = Paragraph(runs: seq<Run>, style: Option<string>)

  /** A document section: header and footer paragraph texts, and a column count when one is exposed. */
  datatype Section = Section(header: seq<string>, footer: seq<string>, columns: Option<int>)

  /** The parts of a document the checkers read. */
  datatype Document = Document(
    paragraphs: seq<Paragraph>,
    tableCount: nat,
    sections: seq<Section>,
    relTargets: seq<string>)  // the `target_ref` of every relationship of the main part

  /** A run with only text, as `add_run(text)` or `add_paragraph(text)` create it. */
  function PlainRun(text: string): Run {
    Run(text, None, None, false)
  }

  /** `paragraph.text`: the run texts concatenated. */
  function RunsText(runs: seq<Run>): string {
    if runs == [] then "" else runs[0].text + RunsText(runs[1..])
  }

  function ParaText(p: Paragraph): string {
    RunsText(p.runs)
  }

  lemma RunsTextAppend(a: seq<Run>, b: seq<Run>)
    ensures RunsText(a + b) == RunsText(a) + RunsText(b)
  {
    if a != [] {
      assert (a + b)[1..] == a[1..] + b;
    } else {
      assert a + b == b;
    }
  }

  /** `[p.text for p in doc.paragraphs]`. */
  function ParagraphTexts(paras: seq<Paragraph>): (r: seq<string>)
    ensures |r| == |paras|
    ensures forall i :: 0 <= i < |paras| ==> r[i] == ParaText(paras[i])
  {
    seq(|paras|, i requires 0 <= i < |paras| => ParaText(paras[i]))
  }

  /** The paragraph at `i` is a heading named `name` in the sense of `find_section_in_docx`. */
  predicate NamesSection(paras: seq<Paragraph>, name: string, i: int) {
    0 <= i < |paras| && Contains(Upper(ParaText(paras[i])), Upper(name))
  }

  /** The least index from `from` on whose upper-cased text contains the upper-cased name. */
  function SectionIndexFrom(paras: seq<Paragraph>, name: string, from: nat): (r: Option<nat>)
    requires from <= |paras|
    ensures r.Some? ==> from <= r.value && NamesSection(paras, name, r.value)
    ensures r.Some? ==> forall j :: from <= j < r.value ==> !NamesSection(paras, name, j)
    ensures r.None? ==> forall j :: from <= j < |paras| ==> !NamesSection(paras, name, j)
    decreases |paras| - from
  {
    if from == |paras| then None
    else if NamesSection(paras, name, from) then Some(from)
    else SectionIndexFrom(paras, name, from + 1)
  }

  /** The value `find_section_in_docx(doc, name)` returns. */
  function SectionIndex(paras: seq<Paragraph>, name: string): (r: Option<nat>)
    ensures r.Some? ==> NamesSection(paras, name, r.value)
    ensures r.Some? ==> forall j :: 0 <= j < r.value ==> !NamesSection(paras, name, j)
    ensures r.None? ==> forall j :: 0 <= j < |paras| ==> !NamesSection(paras, name, j)
  {
    SectionIndexFrom(paras, name, 0)
  }

  /** `find_section_in_docx`: the first paragraph naming the section. */
  method FindSectionInDocx(doc: Document, name: string) returns (r: Option<nat>)
    ensures r == SectionIndex(doc.paragraphs, name)
  {
    var nameUpper := Upper(name);
    var i := 0;
    while i < |doc.paragraphs|
      invariant 0 <= i <= |doc.paragraphs|
      invariant SectionIndex(doc.paragraphs, name) == SectionIndexFrom(doc.paragraphs, name, i)
    {
      if Contains(Upper(ParaText(doc.paragraphs[i])), nameUpper) {
        return Some(i);
      }
      i := i + 1;
    }
    return None;
  }

  /** `extract_docx_text`: the paragraph texts joined by newlines, in document order. */
  method ExtractDocxText(doc: Document) returns (r: string)
    ensures r == Join(ParagraphTexts(doc.paragraphs), "\n")
  {
    var texts: seq<string> := [];
    var i := 0;
    while i < |doc.paragraphs|
      invariant 0 <= i <= |doc.paragraphs|
      invariant texts == ParagraphTexts(doc.paragraphs[..i])
    {
      texts := texts + [ParaText(doc.paragraphs[i])];
      i := i + 1;
    }
    assert doc.paragraphs[..i] == doc.paragraphs;
    r := Join(texts, "\n");
  }

  /** The font name of a run when python-docx reports a truthy one. */
  predicate HasFontName(run: Run) {
    run.font.Some? && run.font.value != ""
  }

  /** Some run of the paragraphs uses font `f`. */
  predicate FontUsedIn(paras: seq<Paragraph>, f: string) {
    exists i, k :: 0 <= i < |paras| && 0 <= k < |paras[i].runs| && HasFontName(paras[i].runs[k]) && paras[i].runs[k].font.value == f
  }

  /** The non-empty font names set on a list of runs. */
  function FontsOfRuns(runs: seq<Run>): (r: set<string>)
    ensures forall f :: f in r <==> exists k :: 0 <= k < |runs| && HasFontName(runs[k]) && runs[k].font.value == f
  {
    set k | 0 <= k < |runs| && HasFontName(runs[k]) :: runs[k].font.value
  }

  /** `get_fonts_used`: every non-empty font name set on some run. */
  method GetFontsUsed(doc: Document) returns (fonts: set<string>)
    ensures forall f :: f in fonts <==> FontUsedIn(doc.paragraphs, f)
  {
    fonts := {};
    var i := 0;
    while i < |doc.paragraphs|
      invariant 0 <= i <= |doc.paragraphs|
      invariant forall f :: f in fonts <==> FontUsedIn(doc.paragraphs[..i], f)
    {
      var runs := doc.paragraphs[i].runs;
      var k := 0;
      while k < |runs|
        invariant 0 <= k <= |runs|
        invariant forall f :: f in fonts <==> FontUsedIn(doc.paragraphs[..i], f) || f in FontsOfRuns(runs[..k])
      {
        if HasFontName(runs[k]) {
          fonts := fonts + {runs[k].font.value};
        }
        assert runs[..k + 1] == runs[..k] + [runs[k]];
        k := k + 1;
      }
      assert runs[..k] == runs;
      FontUsedInExtend(doc.paragraphs, i);
      i := i + 1;
    }
    assert doc.paragraphs[..i] == doc.paragraphs;
  }

  lemma FontUsedInExtend(paras: seq<Paragraph>, i: nat)
    requires i < |paras|
    ensures forall f :: FontUsedIn(paras[..i + 1], f) <==> FontUsedIn(paras[..i], f) || f in FontsOfRuns(paras[i].runs)
  {
    var pre := paras[..i];
    var ext := paras[..i + 1];
    forall f ensures FontUsedIn(ext, f) <==> FontUsedIn(pre, f) || f in FontsOfRuns(paras[i].runs) {
      if FontUsedIn(ext, f) {
        var a, k :| 0 <= a < |ext| && 0 <= k < |ext[a].runs| && HasFontName(ext[a].runs[k]) && ext[a].runs[k].font.value == f;
        if a < i {
          assert pre[a] == ext[a];
        } else {
          assert ext[a] == paras[i];
        }
      }
      if FontUsedIn(pre, f) {
        var a, k :| 0 <= a < |pre| && 0 <= k < |pre[a].runs| && HasFontName(pre[a].runs[k]) && pre[a].runs[k].font.value == f;
        assert ext[a] == pre[a];
      }
      if f in FontsOfRuns(paras[i].runs) {
        var k :| 0 <= k < |paras[i].runs| && HasFontName(paras[i].runs[k]) && paras[i].runs[k].font.value == f;
        assert ext[i] == paras[i];
      }
    }
  }

  /** `has_tables`. */
  function HasTables(doc: Document): (r: bool)
    ensures r <==> doc.tableCount > 0
  {
    doc.tableCount > 0
  }

  /** Some paragraph text of the list is not blank (`any(p.text.strip() for p in ...)`). */
  predicate AnyNonBlank(texts: seq<string>) {
    exists i :: 0 <= i < |texts| && Strip(texts[i]) != ""
  }

  /** Section `s` shows text in its header or its footer. */
  predicate ShowsHeaderOrFooter(s: Section) {
    AnyNonBlank(s.header) || AnyNonBlank(s.footer)
  }

  /** `has_headers_footers`: some section has a header or footer paragraph with non-whitespace text. */
  method HasHeadersFooters(doc: Document) returns (r: bool)
    ensures r <==> exists i :: 0 <= i < |doc.sections| && ShowsHeaderOrFooter(doc.sections[i])
  {
    var i := 0;
    while i < |doc.sections|
      invariant 0 <= i <= |doc.sections|
      invariant forall j :: 0 <= j < i ==> !ShowsHeaderOrFooter(doc.sections[j])
    {
      var header := doc.sections[i].header;
      var k := 0;
      while k < |header|
        invariant 0 <= k <= |header|
        invariant forall j :: 0 <= j < k ==> Strip(header[j]) == ""
      {
        if Strip(header[k]) != "" {
          return true;
        }
        k := k + 1;
      }
      var footer := doc.sections[i].footer;
      k := 0;
      while k < |footer|
        invariant 0 <= k <= |footer|
        invariant forall j :: 0 <= j < k ==> Strip(footer[j]) == ""
      {
        if Strip(footer[k]) != "" {
          return true;
        }
        k := k + 1;
      }
      i := i + 1;
    }
    return false;
  }

  /** `has_graphics`: some relationship target contains "image", compared case-sensitively. */
  method HasGraphics(doc: Document) returns (r: bool)
    ensures r <==> exists i :: 0 <= i < |doc.relTargets| && Contains(doc.relTargets[i], "image")
  {
    var i := 0;
    while i < |doc.relTargets|
      invariant 0 <= i <= |doc.relTargets|
      invariant forall j :: 0 <= j < i ==> !Contains(doc.relTargets[j], "image")
    {
      if Contains(doc.relTargets[i], "image") {
        return true;
      }
      i := i + 1;
    }
    return false;
  }
}
