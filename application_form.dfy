/**
 * `src/assistants/application_form.py`: text for application form fields.
 * The optional parser is represented by what its `extract_all` reports
 * (`None` when no parser was given); the salary reference table is a
 * parameter.  A missing optional argument and an empty string are both
 * written `""`, since the source only tests their truth value.
 */
module ApplicationForm {
  import opened Wrappers
  import opened TextUtil
  import JdParser
  import Salary

  // ---------------------------------------------------------------------
  // STAR answers
  // ---------------------------------------------------------------------

  const DefaultSituation := "In my previous role"
  const DefaultTask := "I was tasked with"
  const DefaultAction := "I took action to"
  const DefaultResult := "This resulted in positive outcomes"

  /** `user_experience.get(key, default)`. */
  function Part(experience: map<string, string>, key: string, default: string): string {
    if key in experience then experience[key] else default
  }

  /**
   * The keywords the answer mentions: the first two of the (at most three)
   * technical skills taken from the parser, none without a parser.
   */
  function MentionedKeywords(jd: Option<JdParser.JdAnalysis>): (r: seq<string>)
    ensures |r| <= 2
    ensures jd.None? ==> r == []
    ensures jd.Some? ==> r == Take(jd.value.technicalSkills, 2)
  {
    var keywords := if jd.Some? then Take(jd.value.technicalSkills, 3) else [];
    Take(keywords, 2)
  }

  /** `", utilizing k1, k2"` when there are keywords, nothing otherwise. */
  function Utilizing(keywords: seq<string>): string {
    if keywords == [] then "" else ", utilizing " + Join(keywords, ", ")
  }

  /** `generate_star_answer(question, user_experience)`. */
  function GenerateStarAnswer(jd: Option<JdParser.JdAnalysis>, question: string, experience: map<string, string>): (r: string)
    ensures
      var situation := Part(experience, "situation", DefaultSituation);
      var task := Part(experience, "task", DefaultTask);
      var action := Part(experience, "action", DefaultAction);
      var result := Part(experience, "result", DefaultResult);
      r == Join(["Situation: " + situation + ".",
                 "Task: " + task + ".",
                 "Action: " + action + Utilizing(MentionedKeywords(jd)) + ".",
                 "Result: " + result + "."], "\n\n")
  {
    var situation := Part(experience, "situation", DefaultSituation);
    var task := Part(experience, "task", DefaultTask);
    var action := Part(experience, "action", DefaultAction);
    var result := Part(experience, "result", DefaultResult);
    var keywords := if jd.Some? then Take(jd.value.technicalSkills, 3) else [];
    var utilizing := if keywords != [] then ", utilizing " + Join(Take(keywords, 2), ", ") else "";
    assert utilizing == Utilizing(MentionedKeywords(jd));
    var s := "Situation: " + situation + ".";
    var t := "Task: " + task + ".";
    var a := "Action: " + action + utilizing + ".";
    var res := "Result: " + result + ".";
    var blank := "\n\n";
    JoinFour(s, t, a, res, blank);
    var answer := s + blank + t + blank + a + blank + res;
    answer
  }

  /** With no experience given, every part takes its default phrase. */
  lemma StarAnswerDefaults(jd: Option<JdParser.JdAnalysis>, question: string)
    ensures GenerateStarAnswer(jd, question, map[]) ==
      Join(["Situation: " + DefaultSituation + ".",
            "Task: " + DefaultTask + ".",
            "Action: " + DefaultAction + Utilizing(MentionedKeywords(jd)) + ".",
            "Result: " + DefaultResult + "."], "\n\n")
  {
  }

  /** Without a parser, or with a parser that found no skills, no keyword clause is added. */
  lemma StarAnswerWithoutKeywords(jd: Option<JdParser.JdAnalysis>, question: string, experience: map<string, string>)
    requires jd.None? || jd.value.technicalSkills == []
    ensures GenerateStarAnswer(jd, question, experience) ==
      Join(["Situation: " + Part(experience, "situation", DefaultSituation) + ".",
            "Task: " + Part(experience, "task", DefaultTask) + ".",
            "Action: " + Part(experience, "action", DefaultAction) + ".",
            "Result: " + Part(experience, "result", DefaultResult) + "."], "\n\n")
  {
    var action := Part(experience, "action", DefaultAction);
    assert Utilizing(MentionedKeywords(jd)) == "";
    assert "Action: " + action + Utilizing(MentionedKeywords(jd)) == "Action: " + action;
  }

  // ---------------------------------------------------------------------
  // Salary range for a form field
  // ---------------------------------------------------------------------

  /** What `calculate_salary_range` returns: a note (its range is always "Not available") or the range found. */
  datatype FormSalary =
    | Unavailable(note: string)
    | Available(range: string, level: string, location: string, yearsExperience: string)
  {
    /** The `range` entry of the returned dict. */
    function RangeText(): string {
      if Unavailable? then Salary.NotAvailable else range
    }
  }

  /**
   * `calculate_salary_range(role_level, location, country)`: the exact
   * location, else the first entry when a London or major-cities entry
   * exists, else "Location not found".
   */
  function CalculateSalaryRange(data: Salary.SalaryData, roleLevel: string, location: string, country: string): (r: FormSalary)
    ensures Salary.CountryKey(country) !in data ==> r == Unavailable("Salary data not found")
    ensures Salary.CountryKey(country) in data && roleLevel !in data[Salary.CountryKey(country)] ==>
      r == Unavailable("Role level not found")
    ensures Salary.CountryKey(country) in data && roleLevel in data[Salary.CountryKey(country)] ==>
      var role := data[Salary.CountryKey(country)][roleLevel];
      (r.Available? <==>
         Salary.HasKey(role, location) || Salary.HasKey(role, "london") || Salary.HasKey(role, "major_cities")) &&
      (r.Unavailable? ==> r.note == "Location not found") &&
      (r.Available? ==>
         r.level == roleLevel && r.location == location &&
         r.yearsExperience == (if Salary.HasKey(role, "years_experience")
                               then Salary.Get(role, "years_experience").value else "N/A")) &&
      (Salary.HasKey(role, location) ==> Salary.Get(role, location) == Some(r.range)) &&
      (!Salary.HasKey(role, location) && r.Available? ==> |role| > 0 && r.range == role[0].1)
  {
    var key := Salary.CountryKey(country);
    if key !in data then Unavailable("Salary data not found")
    else if roleLevel !in data[key] then Unavailable("Role level not found")
    else
      var role := data[key][roleLevel];
      var years := Salary.Get(role, "years_experience");
      var yearsText := if years.Some? then years.value else "N/A";
      if Salary.HasKey(role, location) then
        Available(Salary.Get(role, location).value, roleLevel, location, yearsText)
      else if Salary.HasKey(role, "london") || Salary.HasKey(role, "major_cities") then
        Available(role[0].1, roleLevel, location, yearsText)
      else Unavailable("Location not found")
  }

  /**
   * The form's lookup and the salary calculator's agree on which lookups
   * fail for want of a country or role, and on the exact location; without
   * the exact key and without a London or major-cities entry the form
   * gives up while the calculator still quotes the table's first entry.
   */
  lemma FormDiffersFromCalculator(data: Salary.SalaryData, roleLevel: string, location: string, country: string)
    ensures CalculateSalaryRange(data, roleLevel, location, country).Unavailable? &&
            CalculateSalaryRange(data, roleLevel, location, country).note != "Location not found"
        <==> Salary.GetSalaryRange(data, roleLevel, location, country).SalaryError?
    ensures var f := CalculateSalaryRange(data, roleLevel, location, country);
      var c := Salary.GetSalaryRange(data, roleLevel, location, country);
      c.SalaryRange? && Salary.HasKey(data[Salary.CountryKey(country)][roleLevel], location) ==>
        f.Available? && f.range == c.range && f.yearsExperience == c.yearsExperience
    ensures var f := CalculateSalaryRange(data, roleLevel, location, country);
      var c := Salary.GetSalaryRange(data, roleLevel, location, country);
      c.SalaryRange? && f.Unavailable? && data[Salary.CountryKey(country)][roleLevel] != [] ==>
        c.range == data[Salary.CountryKey(country)][roleLevel][0].1
  {
  }

  // ---------------------------------------------------------------------
  // Hiring message
  // ---------------------------------------------------------------------

  const AvailabilitySentence := "I'm available to discuss how I can contribute to your team and would welcome the opportunity to speak further."
  const Expansion := " My experience aligns well with your requirements, and I'm confident I can make a meaningful contribution to your organization."

  /** The first sentence: interest in the company, and in the detail when given. */
  function InterestSentence(companyName: string, jdDetail: string): string {
    "I'm genuinely interested in " + companyName + (if jdDetail != "" then " and " + Lower(jdDetail) else "") + ". "
  }

  /** The skills clause, naming at most the first three skills. */
  function SkillsClause(keySkills: seq<string>): string {
    if keySkills != [] then "I bring strong expertise in " + Join(Take(keySkills, 3), ", ") + ", " else ""
  }

  /** The clause about the job-description detail, when given. */
  function DetailClause(jdDetail: string): string {
    if jdDetail != "" then "and I'm particularly excited about " + Lower(jdDetail) + ". " else ""
  }

  /** Each piece of a four-piece text occurs in it, and the first one starts it. */
  lemma FourPieces(a: string, b: string, c: string, d: string)
    ensures a <= a + b + c + d
    ensures Contains(a + b + c + d, b) && Contains(a + b + c + d, c) && Contains(a + b + c + d, d)
  {
    ContainsEnd(a, b);
    ContainsLeft(a + b, c, b);
    ContainsLeft(a + b + c, d, b);
    ContainsEnd(a + b, c);
    ContainsLeft(a + b + c, d, c);
    ContainsEnd(a + b + c, d);
  }

  /** The message before its word count is adjusted. */
  function HiringDraft(companyName: string, keySkills: seq<string>, jdDetail: string): (r: string)
    ensures InterestSentence(companyName, jdDetail) <= r
    ensures Contains(r, SkillsClause(keySkills)) && Contains(r, DetailClause(jdDetail))
    ensures Contains(r, AvailabilitySentence)
  {
    var pre := InterestSentence(companyName, jdDetail);
    var skills := SkillsClause(keySkills);
    var detail := DetailClause(jdDetail);
    FourPieces(pre, skills, detail, AvailabilitySentence);
    pre + skills + detail + AvailabilitySentence
  }

  /**
   * `generate_hiring_message(company_name, key_skills, jd_detail)`: a draft
   * of more than 300 words is cut to its first 300 words plus `"..."`; one
   * of fewer than 200 words gets the expansion sentence appended once.
   */
  function GenerateHiringMessage(companyName: string, keySkills: seq<string>, jdDetail: string): (r: string)
    ensures var draft := HiringDraft(companyName, keySkills, jdDetail);
      (WordCount(draft) > 300 ==> r == Join(SplitWs(draft)[..300], " ") + "...") &&
      (WordCount(draft) < 200 ==> r == draft + Expansion) &&
      (200 <= WordCount(draft) <= 300 ==> r == draft)
  {
    var message := HiringDraft(companyName, keySkills, jdDetail);
    var words := SplitWs(message);
    if |words| > 300 then Join(words[..300], " ") + "..."
    else if |words| < 200 then message + Expansion
    else message
  }

  /** Cutting a list of words to its first `n` and appending dots to the last one keeps `n` words. */
  lemma {:induction false} CutKeepsWordCount(ws: seq<string>, n: nat)
    requires 0 < n <= |ws|
    requires forall k :: 0 <= k < |ws| ==> IsToken(ws[k])
    ensures WordCount(Join(ws[..n], " ") + "...") == n
  {
    var words := ws[..n];
    var last := words[n - 1] + "...";
    JoinAppendToLast(words, "...");
    var cut := words[..n - 1] + [last];
    assert forall k :: 0 <= k < n - 1 ==> cut[k] == ws[k];
    assert IsToken(last) by {
      assert forall i :: |words[n - 1]| <= i < |last| ==> last[i] == '.';
    }
    SplitJoinRoundTrip(cut);
  }

  /** A cut message has exactly 300 words: the dots stay on the last word. */
  lemma LongMessageCutTo300Words(companyName: string, keySkills: seq<string>, jdDetail: string)
    requires WordCount(HiringDraft(companyName, keySkills, jdDetail)) > 300
    ensures WordCount(GenerateHiringMessage(companyName, keySkills, jdDetail)) == 300
  {
    CutKeepsWordCount(SplitWs(HiringDraft(companyName, keySkills, jdDetail)), 300);
  }

  /**
   * The expansion is appended once, not until 200 words are reached: a
   * draft shorter than 272 characters still ends under 200 words.
   */
  lemma ShortMessageStaysShort(companyName: string, keySkills: seq<string>, jdDetail: string)
    requires |HiringDraft(companyName, keySkills, jdDetail)| < 272
    ensures GenerateHiringMessage(companyName, keySkills, jdDetail) == HiringDraft(companyName, keySkills, jdDetail) + Expansion
    ensures WordCount(GenerateHiringMessage(companyName, keySkills, jdDetail)) < 200
  {
    var draft := HiringDraft(companyName, keySkills, jdDetail);
    WordCountBound(draft);
    WordCountBound(draft + Expansion);
  }
}
