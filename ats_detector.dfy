/**
 * `src/checkers/ats_detector.py`: which applicant tracking system an
 * application page belongs to, and the advice for each system.
 *
 * The signature table is a class attribute of the detector, shared by every
 * instance; here it is an object (`SignatureTable`) every detector holds a
 * reference to, and the detector's constructor merges the rules file into it.
 * A dict is an ordered list of `(key, value)` pairs with distinct keys.
 */
module AtsDetector {
  import opened Wrappers
  import opened TextUtil

  /**
   * The configuration of one system.  Every key is optional, since a rules
   * file may replace or add any of them; the detector reads each with a
   * default.
   */
  datatype Config = Config(
    urlPatterns: Option<seq<string>>,
    htmlSignatures: Option<seq<string>>,
    focus: Option<string>,
    tips: Option<seq<string>>)

  function ConfigOf(urls: seq<string>, html: seq<string>, focus: string, tips: seq<string>): Config {
    Config(Some(urls), Some(html), Some(focus), Some(tips))
  }

  /** The built-in `ATS_SIGNATURES`, in table order. */
  const DefaultSignatures: seq<(string, Config)> := [
    ("greenhouse", ConfigOf(["greenhouse.io", "boards.greenhouse.io"], ["data-greenhouse", "greenhouse"],
      "Keyword matching + scorecard alignment",
      ["Role title matches highly weighted", "Answer knockout questions carefully", "Keywords are heavily weighted"])),
    ("workable", ConfigOf(["workable.com", "apply.workable.com"], ["workable-app", "workable"],
      "Skills matching + disqualification questions",
      ["Watch for disqualification questions", "Parses .docx very well", "Skills matching is primary scoring"])),
    ("lever", ConfigOf(["lever.co", "jobs.lever.co"], ["lever-form", "lever"],
      "Experience duration + cover letters",
      ["State years of experience clearly", "Cover letters surfaced to recruiters", "Write detailed cover letter"])),
    ("ashby", ConfigOf(["ashbyhq.com", "jobs.ashbyhq.com"], ["ashby-job", "ashby"],
      "Modern, similar to Greenhouse",
      ["Treat similar to Greenhouse", "Strong keyword matching"])),
    ("taleo", ConfigOf(["taleo.net", "taleo.com"], ["taleo"],
      "Strict keyword matching",
      ["Older system, very keyword-focused", "Use exact terminology", "Be thorough with all fields"])),
    ("workday", ConfigOf(["myworkday.com", "workday.com"], ["workday"],
      "Enterprise, keyword-focused",
      ["Very keyword-driven", "Complete all optional fields", "Use exact matches"]))
  ]

  /** The keys of a table, in order. */
  function Names(entries: seq<(string, Config)>): (r: seq<string>)
    ensures |r| == |entries|
    ensures forall i :: 0 <= i < |entries| ==> r[i] == entries[i].0
  {
    seq(|entries|, i requires 0 <= i < |entries| => entries[i].0)
  }

  lemma DefaultSystems()
    ensures Names(DefaultSignatures) == ["greenhouse", "workable", "lever", "ashby", "taleo", "workday"]
    ensures Distinct(Names(DefaultSignatures))
  {
  }

  /** `dict.update`: every key the update carries replaces the stored one. */
  function UpdateConfig(base: Config, upd: Config): Config {
    Config(
      if upd.urlPatterns.Some? then upd.urlPatterns else base.urlPatterns,
      if upd.htmlSignatures.Some? then upd.htmlSignatures else base.htmlSignatures,
      if upd.focus.Some? then upd.focus else base.focus,
      if upd.tips.Some? then upd.tips else base.tips)
  }

  /**
   * Updating twice with the same keys is updating once, an update without
   * keys changes nothing, and an update carrying every key replaces the
   * whole configuration.
   */
  lemma UpdateConfigSpec(base: Config, upd: Config)
    ensures UpdateConfig(UpdateConfig(base, upd), upd) == UpdateConfig(base, upd)
    ensures UpdateConfig(base, Config(None, None, None, None)) == base
    ensures upd.urlPatterns.Some? && upd.htmlSignatures.Some? && upd.focus.Some? && upd.tips.Some? ==>
      UpdateConfig(base, upd) == upd
  {
  }

  /** `ATS_SIGNATURES[system].update(config)` when `system` is a key, nothing otherwise. */
  function MergeSystem(entries: seq<(string, Config)>, system: string, config: Config): (r: seq<(string, Config)>)
    ensures |r| == |entries|
    ensures forall i :: 0 <= i < |entries| && entries[i].0 != system ==> r[i] == entries[i]
    ensures forall i :: 0 <= i < |entries| && entries[i].0 == system ==> r[i] == (system, UpdateConfig(entries[i].1, config))
  {
    seq(|entries|, i requires 0 <= i < |entries| =>
      if entries[i].0 == system then (system, UpdateConfig(entries[i].1, config)) else entries[i])
  }

  /** The merge loop of the constructor over the `ats_systems` entries of the rules file. */
  function MergeAll(entries: seq<(string, Config)>, rules: seq<(string, Config)>): seq<(string, Config)>
    decreases |rules|
  {
    if rules == [] then entries
    else MergeAll(MergeSystem(entries, rules[0].0, rules[0].1), rules[1..])
  }

  /** Merging never adds, removes or reorders systems: names the table does not have are ignored. */
  lemma {:induction false} MergeAllKeepsNames(entries: seq<(string, Config)>, rules: seq<(string, Config)>)
    ensures Names(MergeAll(entries, rules)) == Names(entries)
    decreases |rules|
  {
    if rules != [] {
      var next := MergeSystem(entries, rules[0].0, rules[0].1);
      assert Names(next) == Names(entries);
      MergeAllKeepsNames(next, rules[1..]);
    }
  }

  /** A system the rules file does not mention keeps its configuration. */
  lemma {:induction false} MergeAllKeepsUnmentioned(entries: seq<(string, Config)>, rules: seq<(string, Config)>, i: nat)
    requires i < |entries|
    requires forall k :: 0 <= k < |rules| ==> rules[k].0 != entries[i].0
    ensures i < |MergeAll(entries, rules)| && MergeAll(entries, rules)[i] == entries[i]
    decreases |rules|
  {
    if rules != [] {
      var next := MergeSystem(entries, rules[0].0, rules[0].1);
      assert rules[0].0 != entries[i].0;
      MergeAllKeepsUnmentioned(next, rules[1..], i);
    }
  }

  /** The first value stored under `name`. */
  function Lookup(entries: seq<(string, Config)>, name: string): (r: Option<Config>)
    ensures r.None? <==> name !in Names(entries)
    ensures r.Some? ==> exists i :: 0 <= i < |entries| && entries[i] == (name, r.value)
  {
    if entries == [] then None
    else if entries[0].0 == name then Some(entries[0].1)
    else
      var rest := Lookup(entries[1..], name);
      assert Names(entries) == [entries[0].0] + Names(entries[1..]);
      assert rest.Some? ==> exists i :: 0 <= i < |entries[1..]| && entries[1..][i] == (name, rest.value);
      rest
  }

  /** Where a page is looked at: its URL or its HTML. */
  datatype Channel = Url | Html

  /** `config.get('url_patterns', [])` or `config.get('html_signatures', [])`. */
  function Patterns(c: Config, ch: Channel): seq<string> {
    match ch
    case Url => if c.urlPatterns.Some? then c.urlPatterns.value else []
    case Html => if c.htmlSignatures.Some? then c.htmlSignatures.value else []
  }

  /** Some pattern of entry `i` occurs in the (lower-cased) text. */
  predicate MatchesAt(entries: seq<(string, Config)>, text: string, ch: Channel, i: int) {
    0 <= i < |entries| && ContainsAny(text, Patterns(entries[i].1, ch))
  }

  /** The first entry, from `from` on, one of whose patterns occurs in the text. */
  function FirstMatchFrom(entries: seq<(string, Config)>, text: string, ch: Channel, from: nat): (r: Option<nat>)
    requires from <= |entries|
    ensures r.Some? ==> from <= r.value && MatchesAt(entries, text, ch, r.value)
    ensures r.Some? ==> forall j :: from <= j < r.value ==> !MatchesAt(entries, text, ch, j)
    ensures r.None? ==> forall j :: from <= j < |entries| ==> !MatchesAt(entries, text, ch, j)
    decreases |entries| - from
  {
    if from == |entries| then None
    else if MatchesAt(entries, text, ch, from) then Some(from)
    else FirstMatchFrom(entries, text, ch, from + 1)
  }

  /** The system the first matching entry names. */
  function FirstSystem(entries: seq<(string, Config)>, text: string, ch: Channel): Option<string> {
    var i := FirstMatchFrom(entries, text, ch, 0);
    if i.Some? then Some(entries[i.value].0) else None
  }

  /** A present, non-empty string (Python truthiness of an optional `str`). */
  predicate Given(s: Option<string>) {
    s.Some? && s.value != ""
  }

  /** `detect_ats`: URL patterns first, then HTML signatures, each in table order. */
  function Detect(entries: seq<(string, Config)>, url: Option<string>, html: Option<string>): Option<string> {
    var byUrl := if Given(url) then FirstSystem(entries, Lower(url.value), Url) else None;
    if byUrl.Some? then byUrl
    else if Given(html) then FirstSystem(entries, Lower(html.value), Html)
    else None
  }

  /**
   * When a URL pattern matches, the HTML is not looked at; otherwise the
   * result is the HTML lookup; with neither input there is no result; any
   * result is a system of the table.
   */
  lemma DetectSpec(entries: seq<(string, Config)>, url: Option<string>, html: Option<string>, otherHtml: Option<string>)
    ensures Given(url) && FirstSystem(entries, Lower(url.value), Url).Some? ==>
      Detect(entries, url, html) == Detect(entries, url, otherHtml)
    ensures !Given(url) && !Given(html) ==> Detect(entries, url, html) == None
    ensures Detect(entries, url, html).Some? ==> Detect(entries, url, html).value in Names(entries)
  {
  }

  /** The earliest system in table order wins: a URL with "greenhouse.io" is Greenhouse's, whatever else it holds. */
  lemma GreenhouseUrlFirst(url: string, html: Option<string>)
    requires Contains(Lower(url), "greenhouse.io")
    ensures Detect(DefaultSignatures, Some(url), html) == Some("greenhouse")
  {
    assert Patterns(DefaultSignatures[0].1, Url)[0] == "greenhouse.io";
    assert MatchesAt(DefaultSignatures, Lower(url), Url, 0);
  }

  /** Signatures are plain substrings: a page that says "leverage" is taken for Lever. */
  lemma LeverageReadsAsLever()
    ensures Detect(DefaultSignatures, None, Some("Leverage")) == Some("lever")
  {
    var t := "leverage";
    assert Lower("Leverage") == t;
    assert !MatchesAt(DefaultSignatures, t, Html, 0) by {
      assert Patterns(DefaultSignatures[0].1, Html) == ["data-greenhouse", "greenhouse"];
      NoneContained(t, ["data-greenhouse", "greenhouse"]);
    }
    assert !MatchesAt(DefaultSignatures, t, Html, 1) by {
      assert Patterns(DefaultSignatures[1].1, Html) == ["workable-app", "workable"];
      assert LacksLetterOf(t, "workable", 0);
      NoneContained(t, ["workable-app", "workable"]);
    }
    assert MatchesAt(DefaultSignatures, t, Html, 2) by {
      assert Patterns(DefaultSignatures[2].1, Html)[1] == "lever";
      assert OccursAt(t, "lever", 0);
    }
  }

  /** The result of `get_optimization_tips`. */
  datatype Tips = Tips(focus: string, tips: seq<string>)

  const GenericTips: Tips := Tips("General ATS optimization", [
    "Use exact keywords from job description",
    "Ensure .docx format",
    "Single column layout",
    "No graphics or tables"])

  /** `get_optimization_tips`: the stored focus and tips, with defaults; generic advice for an unknown system. */
  function OptimizationTips(entries: seq<(string, Config)>, name: string): (r: Tips)
    ensures name !in Names(entries) ==> r == GenericTips && |r.tips| == 4
    ensures name in Names(entries) ==> exists i :: (0 <= i < |entries| && entries[i].0 == name &&
      r.focus == (if entries[i].1.focus.Some? then entries[i].1.focus.value else "General optimization") &&
      r.tips == (if entries[i].1.tips.Some? then entries[i].1.tips.value else []))
  {
    var c := Lookup(entries, name);
    if c.None? then GenericTips
    else Tips(if c.value.focus.Some? then c.value.focus.value else "General optimization",
              if c.value.tips.Some? then c.value.tips.value else [])
  }

  /** The shared `ATS_SIGNATURES` dict. */
  class SignatureTable {
    var entries: seq<(string, Config)>

    /** The table as the class defines it. */
    constructor ()
      ensures entries == DefaultSignatures
    {
      entries := DefaultSignatures;
    }

    /** `ATS_SIGNATURES[system].update(config)` for a system in the table. */
    method Update(system: string, config: Config)
      modifies this
      ensures entries == MergeSystem(old(entries), system, config)
    {
      var i := 0;
      var merged: seq<(string, Config)> := [];
      while i < |entries|
        invariant 0 <= i <= |entries|
        invariant entries == old(entries)
        invariant merged == MergeSystem(entries[..i], system, config)
      {
        var entry := entries[i];
        merged := merged + [if entry.0 == system then (system, UpdateConfig(entry.1, config)) else entry];
        i := i + 1;
      }
      assert entries[..i] == entries;
      entries := merged;
    }
  }

  /** `ATSSystemDetector`, holding the shared signature table. */
  class ATSSystemDetector {
    const signatures: SignatureTable

    /**
     * `rulesSystems` is the `ats_systems` dict of the rules file, empty when
     * the file or the key is missing.  Only systems already in the table are
     * updated, and the table is shared: later detectors see the merge.
     */
    constructor (signatures: SignatureTable, rulesSystems: seq<(string, Config)>)
      modifies signatures
      ensures this.signatures == signatures
      ensures signatures.entries == MergeAll(old(signatures.entries), rulesSystems)
    {
      this.signatures := signatures;
      new;
      var k := 0;
      while k < |rulesSystems|
        invariant 0 <= k <= |rulesSystems|
        invariant MergeAll(old(signatures.entries), rulesSystems) == MergeAll(signatures.entries, rulesSystems[k..])
      {
        var (system, config) := rulesSystems[k];
        assert rulesSystems[k..][1..] == rulesSystems[k + 1..];
        if system in Names(signatures.entries) {
          signatures.Update(system, config);
        } else {
          assert MergeSystem(signatures.entries, system, config) == signatures.entries;
        }
        k := k + 1;
      }
    }

    /** `detect_ats`: the first system in table order with a matching URL pattern, else with a matching HTML signature. */
    method DetectAts(applicationUrl: Option<string>, htmlContent: Option<string>) returns (r: Option<string>)
      ensures r == Detect(signatures.entries, applicationUrl, htmlContent)
    {
      var entries := signatures.entries;
      if Given(applicationUrl) {
        var urlLower := Lower(applicationUrl.value);
        var found := FirstSystemIn(entries, urlLower, Url);
        if found.Some? {
          return found;
        }
      }
      if Given(htmlContent) {
        var htmlLower := Lower(htmlContent.value);
        r := FirstSystemIn(entries, htmlLower, Html);
        return r;
      }
      return None;
    }
  }

  /** One pass of `detect_ats`: the nested loop over systems and their patterns, returning at the first hit. */
  method FirstSystemIn(entries: seq<(string, Config)>, text: string, ch: Channel) returns (r: Option<string>)
    ensures r == FirstSystem(entries, text, ch)
  {
    var i := 0;
    while i < |entries|
      invariant 0 <= i <= |entries|
      invariant FirstMatchFrom(entries, text, ch, 0) == FirstMatchFrom(entries, text, ch, i)
    {
      var patterns := Patterns(entries[i].1, ch);
      var k := 0;
      while k < |patterns|
        invariant 0 <= k <= |patterns|
        invariant forall j :: 0 <= j < k ==> !Contains(text, patterns[j])
      {
        if Contains(text, patterns[k]) {
          assert MatchesAt(entries, text, ch, i);
          return Some(entries[i].0);
        }
        k := k + 1;
      }
      i := i + 1;
    }
    return None;
  }
}
