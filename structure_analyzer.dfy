/**
 * The structure analyser used for mirroring a job description in a CV
 * (`src/parsers/structure_analyzer.py`): the sections of the description
 * with their line ranges, and the responsibility and requirement bullets
 * found by a two-state scan over the lines.
 */
module StructureAnalyzer {
  import opened Wrappers
  import opened TextUtil
  import opened Patterns

  // ---------------------------------------------------------------------
  // Sections
  // ---------------------------------------------------------------------

  /** A section: its name and the first and last line it covers (the `content` list is never filled). */
  datatype Section = Section(name: string, startLine: nat, endLine: int)

  /** The header found on a line, if any: the first matching shape wins, as the pattern loop breaks. */
  function LineHeader(line: string): Option<string> {
    FirstHeader(Strip(line))
  }

  /** The lines among the first `n` where `f` finds something, as (line, value) pairs in line order. */
  function Hits(lines: seq<string>, f: string -> Option<string>, n: nat): (r: seq<(nat, string)>)
    requires n <= |lines|
    ensures |r| <= n
    ensures forall k :: 0 <= k < |r| ==> r[k].0 < n
  {
    if n == 0 then []
    else
      var before := Hits(lines, f, n - 1);
      match f(lines[n - 1])
      case Some(h) => before + [(n - 1, h)]
      case None => before
  }

  /** The header lines of the description, as (line, name) pairs. */
  function Headers(lines: seq<string>): seq<(nat, string)> {
    Hits(lines, LineHeader, |lines|)
  }

  predicate StrictlyIncreasing(hs: seq<(nat, string)>) {
    forall k :: 0 <= k < |hs| - 1 ==> hs[k].0 < hs[k + 1].0
  }

  /** The hits are exactly the lines where `f` finds something, each recorded once, in order. */
  lemma {:induction false} HitsSpec(lines: seq<string>, f: string -> Option<string>, n: nat)
    requires n <= |lines|
    ensures StrictlyIncreasing(Hits(lines, f, n))
    ensures forall k :: 0 <= k < |Hits(lines, f, n)| ==>
      f(lines[Hits(lines, f, n)[k].0]) == Some(Hits(lines, f, n)[k].1)
    ensures forall i :: 0 <= i < n && f(lines[i]).Some? ==>
      exists k :: 0 <= k < |Hits(lines, f, n)| && Hits(lines, f, n)[k].0 == i
  {
    if n > 0 {
      HitsSpec(lines, f, n - 1);
      var before := Hits(lines, f, n - 1);
      var hs := Hits(lines, f, n);
      assert before <= hs;
      forall i | 0 <= i < n && f(lines[i]).Some?
        ensures exists k :: 0 <= k < |hs| && hs[k].0 == i
      {
        if i < n - 1 {
          var k :| 0 <= k < |before| && before[k].0 == i;
          assert hs[k] == before[k];
        } else {
          assert hs[|hs| - 1].0 == i;
        }
      }
    }
  }

  /**
   * The header lines are exactly the lines where some header shape matches
   * the stripped line, each recorded once, in line order.
   */
  lemma HeadersSpec(lines: seq<string>)
    ensures StrictlyIncreasing(Headers(lines))
    ensures forall k :: 0 <= k < |Headers(lines)| ==>
      Headers(lines)[k].0 < |lines| && FirstHeader(Strip(lines[Headers(lines)[k].0])) == Some(Headers(lines)[k].1)
    ensures forall i :: 0 <= i < |lines| && FirstHeader(Strip(lines[i])).Some? ==>
      exists k :: 0 <= k < |Headers(lines)| && Headers(lines)[k].0 == i
  {
    HitsSpec(lines, LineHeader, |lines|);
  }

  /** Section `k` for the headers `hs`: it ends on the line before the next header, or on `last`. */
  function SectionAt(hs: seq<(nat, string)>, last: int, k: nat): Section
    requires k < |hs|
  {
    Section(hs[k].1, hs[k].0, if k + 1 < |hs| then hs[k + 1].0 as int - 1 else last)
  }

  /** The sections for the headers `hs` when the last one runs to line `last`. */
  function Sectioned(hs: seq<(nat, string)>, last: int): (r: seq<Section>)
    ensures |r| == |hs|
    ensures forall k :: 0 <= k < |hs| ==> r[k] == SectionAt(hs, last, k)
  {
    seq(|hs|, k requires 0 <= k < |hs| => SectionAt(hs, last, k))
  }

  /** The sections for the lines where `f` finds a header, the last one running to the last line. */
  function SectionsWith(lines: seq<string>, f: string -> Option<string>): seq<Section> {
    Sectioned(Hits(lines, f, |lines|), |lines| - 1)
  }

  /** `identify_sections` on the lines. */
  function SectionsOf(lines: seq<string>): seq<Section> {
    SectionsWith(lines, LineHeader)
  }

  /**
   * The sections follow the header lines: section `k` is named after header
   * `k` and starts on its line, starts strictly increase, each section ends
   * just before the next one starts, the last ends on the last line, and so
   * every section covers at least its own header line.
   */
  lemma SectionsWithSpec(lines: seq<string>, f: string -> Option<string>)
    ensures |SectionsWith(lines, f)| == |Hits(lines, f, |lines|)|
    ensures forall k :: 0 <= k < |SectionsWith(lines, f)| ==>
      SectionsWith(lines, f)[k].name == Hits(lines, f, |lines|)[k].1 &&
      SectionsWith(lines, f)[k].startLine == Hits(lines, f, |lines|)[k].0
    ensures forall k :: 0 <= k < |SectionsWith(lines, f)| - 1 ==>
      SectionsWith(lines, f)[k].startLine < SectionsWith(lines, f)[k + 1].startLine &&
      SectionsWith(lines, f)[k].endLine == SectionsWith(lines, f)[k + 1].startLine - 1
    ensures SectionsWith(lines, f) != [] ==> SectionsWith(lines, f)[|SectionsWith(lines, f)| - 1].endLine == |lines| - 1
    ensures forall k :: 0 <= k < |SectionsWith(lines, f)| ==>
      SectionsWith(lines, f)[k].startLine <= SectionsWith(lines, f)[k].endLine < |lines|
  {
    HitsSpec(lines, f, |lines|);
    SectionedSpec(Hits(lines, f, |lines|), |lines| - 1);
  }

  lemma SectionedSpec(hs: seq<(nat, string)>, last: int)
    requires StrictlyIncreasing(hs)
    requires forall k :: 0 <= k < |hs| ==> hs[k].0 <= last
    ensures forall k :: 0 <= k < |hs| - 1 ==>
      Sectioned(hs, last)[k].startLine < Sectioned(hs, last)[k + 1].startLine &&
      Sectioned(hs, last)[k].endLine == Sectioned(hs, last)[k + 1].startLine - 1
    ensures hs != [] ==> Sectioned(hs, last)[|hs| - 1].endLine == last
    ensures forall k :: 0 <= k < |hs| ==> Sectioned(hs, last)[k].startLine <= Sectioned(hs, last)[k].endLine <= last
  {
    var ss := Sectioned(hs, last);
    forall k | 0 <= k < |hs|
      ensures ss[k].startLine <= ss[k].endLine <= last
    {
      if k + 1 < |hs| {
        assert hs[k].0 < hs[k + 1].0 <= last;
      }
    }
  }

  /** `SectionsWithSpec` for the header shapes: one section per header line, in order, covering the text. */
  lemma SectionsSpec(lines: seq<string>)
    ensures |SectionsOf(lines)| == |Headers(lines)|
    ensures forall k :: 0 <= k < |SectionsOf(lines)| ==>
      SectionsOf(lines)[k].name == Headers(lines)[k].1 && SectionsOf(lines)[k].startLine == Headers(lines)[k].0
    ensures forall k :: 0 <= k < |SectionsOf(lines)| - 1 ==>
      SectionsOf(lines)[k].startLine < SectionsOf(lines)[k + 1].startLine &&
      SectionsOf(lines)[k].endLine == SectionsOf(lines)[k + 1].startLine - 1
    ensures SectionsOf(lines) != [] ==> SectionsOf(lines)[|SectionsOf(lines)| - 1].endLine == |lines| - 1
    ensures forall k :: 0 <= k < |SectionsOf(lines)| ==>
      SectionsOf(lines)[k].startLine <= SectionsOf(lines)[k].endLine < |lines|
  {
    SectionsWithSpec(lines, LineHeader);
  }

  /** The names of the sections, in order. */
  function Names(ss: seq<Section>): (r: seq<string>)
    ensures |r| == |ss|
    ensures forall k :: 0 <= k < |ss| ==> r[k] == ss[k].name
  {
    if ss == [] then [] else [ss[0].name] + Names(ss[1..])
  }

  /** `sections` are the closed sections: all but the last of the headers `hs`. */
  predicate ClosedUpTo(sections: seq<Section>, hs: seq<(nat, string)>, last: int)
    requires hs != []
  {
    |sections| == |hs| - 1 && forall k :: 0 <= k < |sections| ==> sections[k] == SectionAt(hs, last, k)
  }

  /** A header on line `i` closes the open section on line `i - 1`. */
  lemma CloseSection(sections: seq<Section>, hs: seq<(nat, string)>, last: int, i: nat, h: string)
    requires hs != [] && ClosedUpTo(sections, hs, last)
    ensures ClosedUpTo(sections + [SectionAt(hs, last, |hs| - 1).(endLine := i as int - 1)], hs + [(i, h)], last)
  {
    var hs' := hs + [(i, h)];
    var s' := sections + [SectionAt(hs, last, |hs| - 1).(endLine := i as int - 1)];
    forall k | 0 <= k < |s'|
      ensures s'[k] == SectionAt(hs', last, k)
    {
      if k < |sections| {
        assert hs'[k] == hs[k] && hs'[k + 1] == hs[k + 1];
      }
    }
  }

  /**
   * The loop of `identify_sections`, with the header test `f` on each line:
   * a new header closes the open section on the line before it, and the
   * section still open at the end runs to the last line.
   */
  method SectionsFound(lines: seq<string>, f: string -> Option<string>) returns (sections: seq<Section>)
    ensures sections == SectionsWith(lines, f)
  {
    sections := [];
    var current: Option<Section> := None;
    ghost var hs: seq<(nat, string)> := [];
    var last := |lines| - 1;
    for i := 0 to |lines|
      invariant hs == Hits(lines, f, i)
      invariant current.None? ==> hs == [] && sections == []
      invariant current.Some? ==> hs != [] && ClosedUpTo(sections, hs, last) && current.value == SectionAt(hs, last, |hs| - 1)
    {
      var m := f(lines[i]);
      if m.Some? {
        if current.Some? {
          CloseSection(sections, hs, last, i, m.value);
          sections := sections + [current.value.(endLine := i as int - 1)];
        }
        hs := hs + [(i, m.value)];
        current := Some(Section(m.value, i, last));
      }
    }
    if current.Some? {
      sections := sections + [current.value];
      assert sections == Sectioned(hs, last);
    }
  }

  // ---------------------------------------------------------------------
  // The responsibility and requirement scans
  // ---------------------------------------------------------------------

  const ResponsibilityMarkers: seq<string> := ["responsibilities", "what you", "key responsibilities", "you will", "duties", "role includes"]
  const RequirementMarkers: seq<string> := ["requirements", "about you", "qualifications", "must have", "essential", "required"]

  /** The state of a scan: inside the wanted section or not, and the bullets collected so far. */
  datatype Scan = Scan(inSection: bool, items: seq<string>)

  /**
   * One line of a scan.  A line whose lowercase form holds an entry marker
   * switches the scan on and is skipped.  Inside the section, an ALL-CAPS
   * `X:` header whose lowercase form holds none of the `keep` words switches
   * it off; otherwise a bullet line contributes its text.
   */
  function ScanLine(st: Scan, line: string, markers: seq<string>, keep: seq<string>): (r: Scan)
    ensures ContainsAny(Lower(line), markers) ==> r == Scan(true, st.items)
    ensures !ContainsAny(Lower(line), markers) && !st.inSection ==> r == st
    ensures st.inSection && !r.inSection ==> CapsColonPrefix(Strip(line)) && !ContainsAny(Lower(line), keep)
    ensures r.items == st.items || (MatchBullet(Strip(line)).Some? && r.items == st.items + [MatchBullet(Strip(line)).value])
    ensures r.items != st.items ==>
      st.inSection && r.inSection && !ContainsAny(Lower(line), markers) && MatchBullet(Strip(line)).Some?
  {
    var lower := Lower(line);
    var t := Strip(line);
    if ContainsAny(lower, markers) then Scan(true, st.items)
    else if !st.inSection then st
    else if CapsColonPrefix(t) && !ContainsAny(lower, keep) then Scan(false, st.items)
    else
      match MatchBullet(t)
      case Some(b) => Scan(true, st.items + [b])
      case None => st
  }

  /** The scan after the first `n` lines. */
  function ScanUpTo(lines: seq<string>, n: nat, markers: seq<string>, keep: seq<string>): (r: Scan)
    requires n <= |lines|
  {
    if n == 0 then Scan(false, [])
    else ScanLine(ScanUpTo(lines, n - 1, markers, keep), lines[n - 1], markers, keep)
  }

  /** `extract_responsibilities`: leaving needs a header without "responsibilit". */
  function Responsibilities(lines: seq<string>): seq<string> {
    ScanUpTo(lines, |lines|, ResponsibilityMarkers, ["responsibilit"]).items
  }

  /** `extract_requirements`: leaving needs a header without any requirement marker. */
  function Requirements(lines: seq<string>): seq<string> {
    ScanUpTo(lines, |lines|, RequirementMarkers, RequirementMarkers).items
  }

  /**
   * Every item comes from a bullet line, in line order: item `k` is the
   * stripped bullet text of a line scanned while the section was on, and
   * that line holds no entry marker.
   */
  lemma ScanItemsFromBullets(lines: seq<string>, n: nat, markers: seq<string>, keep: seq<string>)
    requires n <= |lines|
    ensures |ScanUpTo(lines, n, markers, keep).items| <= n
    ensures forall b :: b in ScanUpTo(lines, n, markers, keep).items ==>
      exists i :: (0 <= i < n && ScanUpTo(lines, i, markers, keep).inSection &&
                   !ContainsAny(Lower(lines[i]), markers) && MatchBullet(Strip(lines[i])) == Some(b))
  {
    ScanItemsCount(lines, n, markers, keep);
    forall b | b in ScanUpTo(lines, n, markers, keep).items
      ensures exists i :: (0 <= i < n && ScanUpTo(lines, i, markers, keep).inSection &&
                           !ContainsAny(Lower(lines[i]), markers) && MatchBullet(Strip(lines[i])) == Some(b))
    {
      ScanItemSource(lines, n, markers, keep, b);
    }
  }

  /** Each line adds at most one item. */
  lemma {:induction false} ScanItemsCount(lines: seq<string>, n: nat, markers: seq<string>, keep: seq<string>)
    requires n <= |lines|
    ensures |ScanUpTo(lines, n, markers, keep).items| <= n
  {
    if n > 0 {
      ScanItemsCount(lines, n - 1, markers, keep);
    }
  }

  /** The line an item was collected from. */
  lemma {:induction false} ScanItemSource(lines: seq<string>, n: nat, markers: seq<string>, keep: seq<string>, b: string)
    requires n <= |lines| && b in ScanUpTo(lines, n, markers, keep).items
    ensures exists i :: (0 <= i < n && ScanUpTo(lines, i, markers, keep).inSection &&
                         !ContainsAny(Lower(lines[i]), markers) && MatchBullet(Strip(lines[i])) == Some(b))
  {
    var st := ScanUpTo(lines, n - 1, markers, keep);
    var r := ScanUpTo(lines, n, markers, keep);
    if b in st.items {
      ScanItemSource(lines, n - 1, markers, keep, b);
    } else {
      assert r.items != st.items;
      assert MatchBullet(Strip(lines[n - 1])) == Some(b);
    }
  }

  /** Prose does not end a section: a line that is neither a marker line nor an ALL-CAPS `X:` header keeps the scan on. */
  lemma ProseKeepsSection(st: Scan, line: string, markers: seq<string>, keep: seq<string>)
    requires st.inSection
    requires !CapsColonPrefix(Strip(line))
    ensures ScanLine(st, line, markers, keep).inSection
  {
  }

  /** Inside the section, every bullet line that is neither a marker line nor a leaving header is collected. */
  lemma BulletCollected(st: Scan, line: string, markers: seq<string>, keep: seq<string>)
    requires st.inSection && !ContainsAny(Lower(line), markers)
    requires MatchBullet(Strip(line)).Some?
    ensures ScanLine(st, line, markers, keep) == Scan(true, st.items + [MatchBullet(Strip(line)).value])
  {
    MatchBulletNotHeader(Strip(line));
  }

  /** A bullet line never looks like an ALL-CAPS `X:` header, since it starts with a bullet glyph. */
  lemma MatchBulletNotHeader(t: string)
    requires MatchBullet(t).Some?
    ensures !CapsColonPrefix(t)
  {
  }

  /**
   * For requirements the keep test inside the section can never succeed,
   * since a line holding a marker already switched the scan on and was
   * skipped: every ALL-CAPS `X:` header inside the section ends it unless it
   * is itself a marker line.
   */
  lemma RequirementHeaderAlwaysLeaves(st: Scan, line: string)
    requires st.inSection && CapsColonPrefix(Strip(line))
    ensures ScanLine(st, line, RequirementMarkers, RequirementMarkers).inSection <==> ContainsAny(Lower(line), RequirementMarkers)
  {
  }

  /** A marker line is skipped even when it is itself a bullet: `"- Duties: code"` collects nothing. */
  lemma MarkerBulletSkipped()
    ensures Responsibilities(["- Duties: code"]) == []
  {
    var line := "- Duties: code";
    var lower := Lower(line);
    assert lower[2..8] == "duties";
    assert OccursAt(lower, "duties", 2);
    ContainsIn(Lower(line), "duties", 2);
    assert ResponsibilityMarkers[4] == "duties";
    assert ContainsAny(lower, ResponsibilityMarkers);
    assert ScanUpTo([line], 1, ResponsibilityMarkers, ["responsibilit"]) == Scan(true, []);
  }

  // ---------------------------------------------------------------------
  // The analyser
  // ---------------------------------------------------------------------

  /** The structure handed to CV mirroring. */
  datatype Mirroring = Mirroring(mainSections: seq<string>, responsibilities: seq<string>, requirements: seq<string>)

  /** The analyser over one job description, split into lines on `'\n'`. */
  class StructureAnalyzer {
    const jdText: string
    const lines: seq<string>

    constructor(jdText: string)
      ensures this.jdText == jdText && lines == SplitOn(jdText, '\n')
    {
      this.jdText := jdText;
      lines := SplitOn(jdText, '\n');
    }

    /** `identify_sections`: the open section is closed at each new header and the last one runs to the end. */
    method IdentifySections() returns (sections: seq<Section>)
      ensures sections == SectionsOf(lines)
    {
      sections := SectionsFound(lines, LineHeader);
    }

    /** One scan over all lines, as both extractors run it. */
    method ScanLines(markers: seq<string>, keep: seq<string>) returns (items: seq<string>)
      ensures items == ScanUpTo(lines, |lines|, markers, keep).items
    {
      items := [];
      var inSection := false;
      for i := 0 to |lines|
        invariant Scan(inSection, items) == ScanUpTo(lines, i, markers, keep)
      {
        var line := lines[i];
        var lineLower := Lower(line);
        if ContainsAny(lineLower, markers) {
          inSection := true;
          continue;
        }
        if inSection {
          var t := Strip(line);
          if CapsColonPrefix(t) && !ContainsAny(lineLower, keep) {
            inSection := false;
            continue;
          }
          var m := MatchBullet(t);
          if m.Some? {
            items := items + [m.value];
          }
        }
      }
    }

    method ExtractResponsibilities() returns (r: seq<string>)
      ensures r == Responsibilities(lines)
    {
      r := ScanLines(ResponsibilityMarkers, ["responsibilit"]);
    }

    method ExtractRequirements() returns (r: seq<string>)
      ensures r == Requirements(lines)
    {
      r := ScanLines(RequirementMarkers, RequirementMarkers);
    }

    /** `get_structure_for_mirroring`: the section names in order and both bullet lists. */
    method GetStructureForMirroring() returns (m: Mirroring)
      ensures m.mainSections == Names(SectionsOf(lines))
      ensures |m.mainSections| == |Headers(lines)|
      ensures forall k :: 0 <= k < |m.mainSections| ==> m.mainSections[k] == Headers(lines)[k].1
      ensures m.responsibilities == Responsibilities(lines)
      ensures m.requirements == Requirements(lines)
    {
      var sections := IdentifySections();
      SectionsSpec(lines);
      var responsibilities := ExtractResponsibilities();
      var requirements := ExtractRequirements();
      m := Mirroring(Names(sections), responsibilities, requirements);
    }
  }
}
