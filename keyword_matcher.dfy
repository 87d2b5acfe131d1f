/**
 * `src/checkers/keyword_matcher.py`: how many of a job description's
 * keywords a CV mentions as whole words, overall and per category, and
 * which section each missing keyword should go to.
 *
 * The keyword dict is an ordered list of categories (Python dicts keep
 * insertion order).  The set of normalised keywords is iterated in an order
 * Python chooses; that order is a ghost out-parameter of the methods.
 * Percentages are exact rationals; `round(x, 1)` is not modelled.
 */
module KeywordMatching {
  import opened TextUtil

  /** One entry of `jd_keywords`: a category name and its keyword list. */
  datatype Category = Category(name: string, keywords: seq<string>)

  /** `keyword.lower().strip()`. */
  function Normalize(k: string): string {
    Strip(Lower(k))
  }

  /** `[f(k) for k in ks if k]`: empty entries are skipped before `f` is applied. */
  function MapNonEmpty(ks: seq<string>, f: string -> string): (r: seq<string>)
    ensures |r| <= |ks|
    decreases |ks|
  {
    if ks == [] then []
    else
      var rest := MapNonEmpty(ks[..|ks| - 1], f);
      if ks[|ks| - 1] != "" then rest + [f(ks[|ks| - 1])] else rest
  }

  /** Entry `i` of `ks` is not empty and `f` takes it to `x`. */
  predicate MapsTo(ks: seq<string>, f: string -> string, i: int, x: string) {
    0 <= i < |ks| && ks[i] != "" && f(ks[i]) == x
  }

  lemma {:induction false} MapNonEmptySpec(ks: seq<string>, f: string -> string, x: string)
    ensures x in MapNonEmpty(ks, f) <==> exists i :: MapsTo(ks, f, i, x)
    decreases |ks|
  {
    if ks != [] {
      var init := ks[..|ks| - 1];
      var last := ks[|ks| - 1];
      var added: seq<string> := if last != "" then [f(last)] else [];
      assert MapNonEmpty(ks, f) == MapNonEmpty(init, f) + added;
      MapNonEmptySpec(init, f, x);
      if x in MapNonEmpty(ks, f) {
        if x in MapNonEmpty(init, f) {
          var i :| MapsTo(init, f, i, x);
          assert MapsTo(ks, f, i, x);
        } else {
          assert MapsTo(ks, f, |ks| - 1, x);
        }
      }
      if exists i :: MapsTo(ks, f, i, x) {
        var i :| MapsTo(ks, f, i, x);
        if i < |init| {
          assert MapsTo(init, f, i, x);
        } else {
          assert x in added;
        }
      }
    }
  }

  /** `[k.lower().strip() for k in keywords if k]`. */
  function CategoryKeywords(ks: seq<string>): (r: seq<string>)
    ensures |r| <= |ks|
  {
    MapNonEmpty(ks, Normalize)
  }

  /** The category list holds exactly the normalised non-empty entries. */
  lemma CategoryKeywordsSpec(ks: seq<string>, x: string)
    ensures x in CategoryKeywords(ks) <==> exists i :: 0 <= i < |ks| && ks[i] != "" && Normalize(ks[i]) == x
  {
    MapNonEmptySpec(ks, Normalize, x);
    assert forall i :: MapsTo(ks, Normalize, i, x) <==> 0 <= i < |ks| && ks[i] != "" && Normalize(ks[i]) == x;
  }

  /** Appending one entry to a keyword list. */
  lemma CategoryKeywordsSnoc(ks: seq<string>, k: nat)
    requires k < |ks|
    ensures CategoryKeywords(ks[..k + 1]) == CategoryKeywords(ks[..k]) + (if ks[k] != "" then [Normalize(ks[k])] else [])
  {
    assert ks[..k + 1][..k] == ks[..k];
  }

  /** `all_keywords`: the normalised keywords of every category, as a set. */
  function AllKeywords(jd: seq<Category>): set<string>
    decreases |jd|
  {
    if jd == [] then {}
    else AllKeywords(jd[..|jd| - 1]) + Elems(CategoryKeywords(jd[|jd| - 1].keywords))
  }

  /** The union of `g` over the entries of `xs`. */
  function UnionOver<T>(xs: seq<T>, g: T -> seq<string>): set<string>
    decreases |xs|
  {
    if xs == [] then {} else UnionOver(xs[..|xs| - 1], g) + Elems(g(xs[|xs| - 1]))
  }

  lemma {:induction false} UnionOverSpec<T>(xs: seq<T>, g: T -> seq<string>, x: string)
    ensures x in UnionOver(xs, g) <==> exists c :: 0 <= c < |xs| && x in g(xs[c])
    decreases |xs|
  {
    if xs != [] {
      var init := xs[..|xs| - 1];
      UnionOverSpec(init, g, x);
      assert forall c :: 0 <= c < |init| ==> init[c] == xs[c];
      assert x in Elems(g(xs[|xs| - 1])) <==> x in g(xs[|xs| - 1]);
    }
  }

  /** The normalised keywords of one category. */
  function KeywordsOf(cat: Category): seq<string> {
    CategoryKeywords(cat.keywords)
  }

  lemma {:induction false} AllKeywordsIsUnion(jd: seq<Category>)
    ensures AllKeywords(jd) == UnionOver(jd, KeywordsOf)
    decreases |jd|
  {
    if jd != [] {
      AllKeywordsIsUnion(jd[..|jd| - 1]);
    }
  }

  /** A keyword is collected iff some category lists a non-empty entry that normalises to it. */
  lemma AllKeywordsSpec(jd: seq<Category>, x: string)
    ensures x in AllKeywords(jd) <==> exists c :: 0 <= c < |jd| && x in CategoryKeywords(jd[c].keywords)
  {
    AllKeywordsIsUnion(jd);
    UnionOverSpec(jd, KeywordsOf, x);
    assert forall c :: 0 <= c < |jd| ==> KeywordsOf(jd[c]) == CategoryKeywords(jd[c].keywords);
  }

  lemma NormalizedSql()
    ensures Normalize("SQL") == "sql" && Normalize(" sql ") == "sql" && Normalize("Sql") == "sql"
  {
    assert Lower("SQL") == "sql" && Lower("Sql") == "sql";
    StripOfToken("sql");
    StripPaddedSql();
  }

  lemma StripPaddedSql()
    ensures Strip(Lower(" sql ")) == "sql"
  {
    assert Lower(" sql ") == " sql ";
    assert SpanSpace(" sql ") == 1;
    assert " sql "[1..] == "sql ";
    assert TrailingSpace("sql ") == 1;
  }

  /** Entries that differ only in letter case or surrounding whitespace count once, across categories. */
  lemma DuplicatesAcrossCategoriesCountOnce()
    ensures AllKeywords([Category("skills", ["SQL", " sql "]), Category("tools", ["Sql", ""])]) == {"sql"}
  {
    var jd := [Category("skills", ["SQL", " sql "]), Category("tools", ["Sql", ""])];
    NormalizedSql();
    assert CategoryKeywords(["SQL"]) == ["sql"];
    assert ["SQL", " sql "][..1] == ["SQL"];
    assert CategoryKeywords(["SQL", " sql "]) == ["sql", "sql"];
    assert ["Sql", ""][..1] == ["Sql"];
    assert CategoryKeywords(["Sql", ""]) == ["sql"];
    assert jd[..1] == [jd[0]];
    assert AllKeywords([jd[0]]) == {"sql"};
  }

  /**
   * `re.search(r'\b' + re.escape(kw) + r'\b', cv_text, re.IGNORECASE)` on
   * the lower-cased CV text.  The keyword is already lower case, so the
   * case-insensitive search is a literal whole-word search.
   */
  predicate Found(cv: string, kw: string) {
    WholeWord(cv, kw)
  }

  /** A keyword inside a longer word is not found: `\b` needs a non-word character or an end on each side. */
  lemma KeywordInsideWordNotFound()
    ensures !Found("javascript", "java")
    ensures Found("java, sql", "java")
  {
    var t := "javascript";
    forall i | 0 <= i <= |t| ensures !WholeWordAt(t, "java", i) {
      if i == 0 {
        assert IsWordAt(t, 3) && IsWordAt(t, 4);
      }
    }
    var u := "java, sql";
    assert u[0..][..4] == "java";
    assert WholeWordAt(u, "java", 0);
  }

  /** `matched_keywords`: the collected keywords the CV mentions. */
  function Matched(cv: string, all: set<string>): (r: set<string>)
    ensures r <= all
  {
    set kw | kw in all && Found(cv, kw)
  }

  /** `missing_keywords`: the keywords of `order` the CV does not mention, in that order. */
  function MissingIn(cv: string, order: seq<string>): (r: seq<string>)
    ensures |r| <= |order|
    decreases |order|
  {
    if order == [] then []
    else
      var rest := MissingIn(cv, order[..|order| - 1]);
      if Found(cv, order[|order| - 1]) then rest else rest + [order[|order| - 1]]
  }

  /** The missing list holds exactly the keywords of `order` the CV does not mention. */
  lemma {:induction false} MissingInSpec(cv: string, order: seq<string>)
    ensures forall x :: x in MissingIn(cv, order) <==> x in order && !Found(cv, x)
    decreases |order|
  {
    if order != [] {
      var init := order[..|order| - 1];
      MissingInSpec(cv, init);
      assert order == init + [order[|order| - 1]];
    }
  }

  /** Filtering keeps a list duplicate-free. */
  lemma {:induction false} MissingInDistinct(cv: string, order: seq<string>)
    requires Distinct(order)
    ensures Distinct(MissingIn(cv, order))
    decreases |order|
  {
    if order != [] {
      var init := order[..|order| - 1];
      var last := order[|order| - 1];
      assert Distinct(init);
      MissingInDistinct(cv, init);
      MissingInSpec(cv, init);
      assert last !in init;
    }
  }

  /**
   * Every collected keyword is either matched or missing, never both, and the
   * two counts add up to the number of distinct keywords.
   */
  lemma MatchedMissingPartition(cv: string, all: set<string>, order: seq<string>)
    requires Enumerates(order, all)
    ensures Elems(MissingIn(cv, order)) == all - Matched(cv, all)
    ensures |Matched(cv, all)| + |MissingIn(cv, order)| == |all|
  {
    var missing := MissingIn(cv, order);
    MissingInDistinct(cv, order);
    MissingInSpec(cv, order);
    assert Elems(missing) == all - Matched(cv, all);
    EnumerationSize(missing, all - Matched(cv, all));
    assert all == Matched(cv, all) + (all - Matched(cv, all));
  }

  /** The number of entries of `kws` (duplicates included) the CV mentions. */
  function CountFound(cv: string, kws: seq<string>): (r: nat)
    ensures r <= |kws|
    ensures r == 0 <==> forall i :: 0 <= i < |kws| ==> !Found(cv, kws[i])
    decreases |kws|
  {
    if kws == [] then 0
    else
      var init := kws[..|kws| - 1];
      assert forall i :: 0 <= i < |init| ==> init[i] == kws[i];
      CountFound(cv, init) + (if Found(cv, kws[|kws| - 1]) then 1 else 0)
  }

  /** One entry of `category_breakdown`. */
  datatype CategoryMatch = CategoryMatch(matched: nat, total: nat, percentage: real)

  /** The breakdown of one category: its normalised list, duplicates counted. */
  function CategoryStats(cv: string, ks: seq<string>): (r: CategoryMatch)
    ensures r.total <= |ks| && r.matched <= r.total
    ensures 0.0 <= r.percentage <= 100.0
    ensures r.total == 0 ==> r.percentage == 0.0
  {
    var kws := CategoryKeywords(ks);
    var m := CountFound(cv, kws);
    CategoryMatch(m, |kws|, Percentage(m, |kws|))
  }

  /** `category_breakdown`, entry by entry in dict order. */
  function Breakdown(cv: string, jd: seq<Category>): (r: seq<(string, CategoryMatch)>)
    ensures |r| == |jd|
    ensures forall c :: 0 <= c < |jd| ==> r[c] == (jd[c].name, CategoryStats(cv, jd[c].keywords))
  {
    seq(|jd|, c requires 0 <= c < |jd| => (jd[c].name, CategoryStats(cv, jd[c].keywords)))
  }

  /** The dict `calculate_match_percentage` returns. */
  datatype MatchStats = MatchStats(
    totalKeywords: nat,
    matchedKeywords: nat,
    missingKeywords: nat,
    matchPercentage: real,
    missingList: seq<string>,
    categoryBreakdown: seq<(string, CategoryMatch)>)

  /** The statistics for CV text `cv` when the keyword set is iterated in the order `order`. */
  function MatchResult(cv: string, jd: seq<Category>, order: seq<string>): MatchStats {
    var all := AllKeywords(jd);
    var matched := Matched(cv, all);
    var missing := MissingIn(cv, order);
    MatchStats(|all|, |matched|, |missing|, Percentage(|matched|, |all|), Take(missing, 20), Breakdown(cv, jd))
  }

  /**
   * The counts `calculate_match_percentage` reports, for any iteration
   * order: matched and missing add up to the total, and the percentage is
   * between 0 and 100, and 0 without keywords.
   */
  lemma MatchCountsSpec(cv: string, jd: seq<Category>, order: seq<string>)
    requires Enumerates(order, AllKeywords(jd))
    ensures var r := MatchResult(cv, jd, order);
      && r.matchedKeywords + r.missingKeywords == r.totalKeywords
      && 0.0 <= r.matchPercentage <= 100.0
      && (r.totalKeywords == 0 ==> r.matchPercentage == 0.0)
  {
    MatchedMissingPartition(cv, AllKeywords(jd), order);
  }

  /**
   * The reported missing list: at most 20 keywords, each collected and not
   * mentioned by the CV, and all of them when there are no more than 20.
   */
  lemma MissingListSpec(cv: string, jd: seq<Category>, order: seq<string>)
    requires Enumerates(order, AllKeywords(jd))
    ensures var r := MatchResult(cv, jd, order);
      && |r.missingList| <= 20
      && (forall x :: x in r.missingList ==> x in AllKeywords(jd) && !Found(cv, x))
      && (r.missingKeywords <= 20 ==> Elems(r.missingList) == AllKeywords(jd) - Matched(cv, AllKeywords(jd)))
  {
    var missing := MissingIn(cv, order);
    MatchedMissingPartition(cv, AllKeywords(jd), order);
    MissingInSpec(cv, order);
    var top := Take(missing, 20);
    forall x | x in top ensures x in missing {
      var i :| 0 <= i < |top| && top[i] == x;
      assert missing[i] == x;
    }
  }

  /** Technical terms belong in the skills section. */
  const TechnicalIndicators: seq<string> := ["sql", "python", "java", "tableau", "aws", "docker"]

  /** Action terms belong in the experience section. */
  const ActionIndicators: seq<string> := ["led", "managed", "developed", "implemented", "designed"]

  /**
   * `_determine_best_section`: "experience" exactly when the lower-cased
   * keyword contains an action indicator and no technical indicator;
   * "skills" otherwise.
   */
  function BestSection(kw: string): (r: string)
    ensures r == "skills" || r == "experience"
    ensures r == "experience" <==> !ContainsAny(Lower(kw), TechnicalIndicators) && ContainsAny(Lower(kw), ActionIndicators)
  {
    if ContainsAny(Lower(kw), TechnicalIndicators) then "skills"
    else if ContainsAny(Lower(kw), ActionIndicators) then "experience"
    else "skills"
  }

  /*
   * The indicator test is a substring test and the technical test comes
   * first: "developed python" goes to skills, "skilled" to experience (it
   * contains "led"), a keyword with no indicator to skills.
   */

  lemma TechnicalIndicatorWins()
    ensures BestSection("developed python") == "skills"
  {
    var a := "developed python";
    assert Lower(a) == a;
    assert OccursAt(a, "python", 10);
    assert Contains(a, TechnicalIndicators[1]);
  }

  lemma IndicatorInsideWord()
    ensures BestSection("skilled") == "experience"
  {
    var b := "skilled";
    SkilledFacts();
    assert OccursAt(b, "led", 4);
    assert Contains(b, ActionIndicators[0]);
  }

  lemma SkilledFacts()
    ensures Lower("skilled") == "skilled"
    ensures !ContainsAny("skilled", TechnicalIndicators)
  {
    var b := "skilled";
    assert LacksLetterOf(b, "sql", 1);
    assert LacksLetterOf(b, "python", 0);
    assert LacksLetterOf(b, "java", 0);
    assert LacksLetterOf(b, "tableau", 1);
    assert LacksLetterOf(b, "aws", 0);
    assert LacksLetterOf(b, "docker", 1);
    NoneContained(b, TechnicalIndicators);
  }

  lemma NoIndicatorMeansSkills()
    ensures BestSection("go") == "skills"
  {
    var c := "go";
    assert Lower(c) == c;
    NoneContained(c, TechnicalIndicators);
    NoneContained(c, ActionIndicators);
  }

  /** The priority of a suggestion: "HIGH" for a required keyword, "MEDIUM" otherwise. */
  function Priority(kw: string, required: seq<string>): string {
    if kw in required then "HIGH" else "MEDIUM"
  }

  /** One entry of `suggest_keyword_placements`. */
  datatype Suggestion = Suggestion(keyword: string, section: string, priority: string)

  /**
   * The suggestion for a missing keyword.  The statistics have no
   * `required_keywords` entry, so `analysis.get('required_keywords', [])`
   * is the empty list.
   */
  function SuggestionFor(kw: string): Suggestion {
    Suggestion(kw, BestSection(kw), Priority(kw, []))
  }

  function SuggestionsFor(kws: seq<string>): (r: seq<Suggestion>)
    ensures |r| == |kws|
    ensures forall i :: 0 <= i < |kws| ==> r[i] == SuggestionFor(kws[i])
  {
    seq(|kws|, i requires 0 <= i < |kws| => SuggestionFor(kws[i]))
  }

  lemma SuggestionsSnoc(kws: seq<string>, i: nat)
    requires i < |kws|
    ensures SuggestionsFor(kws[..i + 1]) == SuggestionsFor(kws[..i]) + [SuggestionFor(kws[i])]
  {
    var a := SuggestionsFor(kws[..i + 1]);
    var b := SuggestionsFor(kws[..i]) + [SuggestionFor(kws[i])];
    assert |a| == |b|;
    forall j | 0 <= j < |a| ensures a[j] == b[j] {
      assert kws[..i + 1][j] == kws[j];
    }
  }

  /** The suggestions for the missing list `missing` as reported (its first 20), of which the first ten are used. */
  function Suggestions(missing: seq<string>): seq<Suggestion> {
    SuggestionsFor(Take(Take(missing, 20), 10))
  }

  /**
   * What `suggest_keyword_placements` promises: one suggestion for each of
   * the first ten missing keywords, in the order of the missing list, every
   * one of priority "MEDIUM" and placed in skills or experience.
   */
  lemma SuggestionsSpec(missing: seq<string>)
    ensures var r := Suggestions(missing);
      && |r| == Min(10, |missing|)
      && forall i :: 0 <= i < |r| ==>
           r[i].keyword == missing[i]
           && r[i].priority == "MEDIUM"
           && (r[i].section == "skills" || r[i].section == "experience")
  {
    var top := Take(Take(missing, 20), 10);
    assert |top| == Min(10, |missing|);
    forall i | 0 <= i < |top| ensures top[i] == missing[i] {
    }
  }

  /** Every suggested keyword is a collected keyword the CV does not mention. */
  lemma SuggestedKeywordsAreMissing(cv: string, jd: seq<Category>, order: seq<string>)
    requires Enumerates(order, AllKeywords(jd))
    ensures forall s :: s in Suggestions(MissingIn(cv, order)) ==> s.keyword in AllKeywords(jd) && !Found(cv, s.keyword)
  {
    var missing := MissingIn(cv, order);
    var r := Suggestions(missing);
    MissingInSpec(cv, order);
    SuggestionsSpec(missing);
    forall s | s in r ensures s.keyword in missing {
      var i :| 0 <= i < |r| && r[i] == s;
      assert s.keyword == missing[i];
    }
  }

  /** `_get_match_grade`. */
  function MatchGrade(percentage: real): (r: string)
    ensures r == "Excellent" <==> percentage >= 90.0
    ensures r == "Good" <==> 80.0 <= percentage < 90.0
    ensures r == "Acceptable" <==> 70.0 <= percentage < 80.0
    ensures r == "Needs Improvement" <==> 60.0 <= percentage < 70.0
    ensures r == "Poor" <==> percentage < 60.0
  {
    if percentage >= 90.0 then "Excellent"
    else if percentage >= 80.0 then "Good"
    else if percentage >= 70.0 then "Acceptable"
    else if percentage >= 60.0 then "Needs Improvement"
    else "Poor"
  }

  /** The position of a grade from "Poor" (0) to "Excellent" (4). */
  function MatchGradeRank(g: string): nat {
    if g == "Excellent" then 4
    else if g == "Good" then 3
    else if g == "Acceptable" then 2
    else if g == "Needs Improvement" then 1
    else 0
  }

  /** A higher percentage never gets a worse grade. */
  lemma MatchGradeMonotone(p: real, q: real)
    requires p <= q
    ensures MatchGradeRank(MatchGrade(p)) <= MatchGradeRank(MatchGrade(q))
  {
  }

  /** The keyword collection loop of `calculate_match_percentage`. */
  method CollectKeywords(jd: seq<Category>) returns (all: set<string>)
    ensures all == AllKeywords(jd)
  {
    all := {};
    var c := 0;
    while c < |jd|
      invariant 0 <= c <= |jd|
      invariant all == AllKeywords(jd[..c])
    {
      var ks := jd[c].keywords;
      var k := 0;
      while k < |ks|
        invariant 0 <= k <= |ks|
        invariant all == AllKeywords(jd[..c]) + Elems(CategoryKeywords(ks[..k]))
      {
        CollectStep(AllKeywords(jd[..c]), ks, k);
        if ks[k] != "" {
          all := all + {Normalize(ks[k])};
        }
        k := k + 1;
      }
      assert ks[..k] == ks;
      AllKeywordsSnoc(jd, c);
      c := c + 1;
    }
    assert jd[..c] == jd;
  }

  lemma CollectStep(prefix: set<string>, ks: seq<string>, k: nat)
    requires k < |ks|
    ensures prefix + Elems(CategoryKeywords(ks[..k + 1]))
         == prefix + Elems(CategoryKeywords(ks[..k])) + (if ks[k] != "" then {Normalize(ks[k])} else {})
  {
    CategoryKeywordsSnoc(ks, k);
    ElemsAppend(CategoryKeywords(ks[..k]), if ks[k] != "" then [Normalize(ks[k])] else []);
  }

  lemma AllKeywordsSnoc(jd: seq<Category>, c: nat)
    requires c < |jd|
    ensures AllKeywords(jd[..c + 1]) == AllKeywords(jd[..c]) + Elems(CategoryKeywords(jd[c].keywords))
  {
    assert jd[..c + 1][..c] == jd[..c];
  }

  /** The keywords of `keys` the CV mentions, as a set. */
  function MatchedIn(cv: string, keys: seq<string>): set<string> {
    set kw | kw in keys && Found(cv, kw)
  }

  /** The matching loop of `calculate_match_percentage`, over the keyword set listed as `keys`. */
  method SplitMatched(cv: string, keys: seq<string>) returns (matched: set<string>, missing: seq<string>)
    ensures matched == MatchedIn(cv, keys)
    ensures missing == MissingIn(cv, keys)
  {
    matched := {};
    missing := [];
    var i := 0;
    while i < |keys|
      invariant 0 <= i <= |keys|
      invariant matched == MatchedIn(cv, keys[..i])
      invariant missing == MissingIn(cv, keys[..i])
    {
      var kw := keys[i];
      assert keys[..i + 1][..i] == keys[..i];
      assert forall x :: x in keys[..i + 1] <==> x in keys[..i] || x == kw;
      if WholeWord(cv, kw) {
        matched := matched + {kw};
      } else {
        missing := missing + [kw];
      }
      i := i + 1;
    }
    assert keys[..i] == keys;
  }

  /** The per-category loop of `calculate_match_percentage`. */
  method CategoryBreakdown(cv: string, jd: seq<Category>) returns (breakdown: seq<(string, CategoryMatch)>)
    ensures breakdown == Breakdown(cv, jd)
  {
    breakdown := [];
    var c := 0;
    while c < |jd|
      invariant 0 <= c <= |jd|
      invariant breakdown == Breakdown(cv, jd[..c])
    {
      var categoryKeywords := CategoryKeywords(jd[c].keywords);
      var categoryMatched := CountFound(cv, categoryKeywords);
      var total := |categoryKeywords|;
      breakdown := breakdown + [(jd[c].name, CategoryMatch(categoryMatched, total, Percentage(categoryMatched, total)))];
      BreakdownSnoc(cv, jd, c);
      c := c + 1;
    }
    assert jd[..c] == jd;
  }

  lemma BreakdownSnoc(cv: string, jd: seq<Category>, c: nat)
    requires c < |jd|
    ensures Breakdown(cv, jd[..c + 1]) == Breakdown(cv, jd[..c]) + [(jd[c].name, CategoryStats(cv, jd[c].keywords))]
  {
    var a := Breakdown(cv, jd[..c + 1]);
    var b := Breakdown(cv, jd[..c]) + [(jd[c].name, CategoryStats(cv, jd[c].keywords))];
    assert |a| == |b|;
    forall i | 0 <= i < |a| ensures a[i] == b[i] {
      assert jd[..c + 1][i] == jd[i];
    }
  }

  /** What `get_match_report` returns: the statistics, the suggestions and the grade. */
  datatype MatchReport = MatchReport(stats: MatchStats, suggestions: seq<Suggestion>, grade: string)

  /** `KeywordMatcher`: the lower-cased CV text and the keyword dict. */
  class KeywordMatcher {
    const cvText: string
    const jdKeywords: seq<Category>

    constructor (cvText: string, jdKeywords: seq<Category>)
      ensures this.cvText == Lower(cvText) && this.jdKeywords == jdKeywords
    {
      this.cvText := Lower(cvText);
      this.jdKeywords := jdKeywords;
    }

    /** `calculate_match_percentage`, with `order` the iteration order of the keyword set. */
    method CalculateMatchPercentage() returns (r: MatchStats, ghost order: seq<string>)
      ensures Enumerates(order, AllKeywords(jdKeywords))
      ensures r == MatchResult(cvText, jdKeywords, order)
    {
      var all := CollectKeywords(jdKeywords);
      var keys := SetToSeq(all);
      order := keys;
      var matched, missing := SplitMatched(cvText, keys);
      assert matched == Matched(cvText, all);
      var breakdown := CategoryBreakdown(cvText, jdKeywords);
      r := MatchStats(|all|, |matched|, |missing|, Percentage(|matched|, |all|), Take(missing, 20), breakdown);
    }

    /** `suggest_keyword_placements`: a suggestion for each of the first ten missing keywords. */
    method SuggestKeywordPlacements() returns (r: seq<Suggestion>, ghost order: seq<string>)
      ensures Enumerates(order, AllKeywords(jdKeywords))
      ensures r == Suggestions(MissingIn(cvText, order))
    {
      var analysis;
      analysis, order := CalculateMatchPercentage();
      assert analysis.missingList == Take(MissingIn(cvText, order), 20);
      var top := Take(analysis.missingList, 10);
      r := [];
      var i := 0;
      while i < |top|
        invariant 0 <= i <= |top|
        invariant r == SuggestionsFor(top[..i])
      {
        var kw := top[i];
        SuggestionsSnoc(top, i);
        r := r + [Suggestion(kw, BestSection(kw), Priority(kw, []))];
        i := i + 1;
      }
      assert top[..i] == top;
    }

    /**
     * `get_match_report`: the statistics, the placement suggestions and the
     * grade of the match percentage.  The two calls build the keyword set
     * afresh; `order` and `suggestionOrder` are their iteration orders.
     */
    method GetMatchReport() returns (r: MatchReport, ghost order: seq<string>, ghost suggestionOrder: seq<string>)
      ensures Enumerates(order, AllKeywords(jdKeywords)) && Enumerates(suggestionOrder, AllKeywords(jdKeywords))
      ensures r.stats == MatchResult(cvText, jdKeywords, order)
      ensures r.suggestions == Suggestions(MissingIn(cvText, suggestionOrder))
      ensures r.grade == MatchGrade(r.stats.matchPercentage)
    {
      var stats;
      stats, order := CalculateMatchPercentage();
      var suggestions;
      suggestions, suggestionOrder := SuggestKeywordPlacements();
      r := MatchReport(stats, suggestions, MatchGrade(stats.matchPercentage));
    }
  }
}
