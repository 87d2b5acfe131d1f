/**
 * `src/engines/cover_letter_gen.py`: the five-paragraph cover letter.
 * Each paragraph is built from a template and stored in its slot of the
 * generator; the complete letter joins them and softens formal phrasing.
 * A missing optional argument (`None`) and an empty string are both
 * written `""`, since the source only tests their truth value.
 */
module CoverLetter {
  import opened TextUtil
  import JdParser

  const MissionSentence := "Your company's mission and values align with my professional goals."
  const GenericSkills := "I have strong technical skills and relevant experience in data analytics."
  const GenericStory := "In my previous role, I led data analysis projects that resulted in significant improvements. For example, I developed automated reporting solutions that reduced manual work by 30% and improved data accuracy."
  const GenericInterest := "I'm particularly drawn to this role because it offers the opportunity to work on challenging data problems and make a meaningful impact."
  const GenericClose := "I'm excited to discuss how I can contribute to your team and would welcome the opportunity to speak with you further."
  const CloseTail := ", and I'm excited to discuss how I can contribute to your team."

  // ---------------------------------------------------------------------
  // The paragraphs
  // ---------------------------------------------------------------------

  /** The opening sentence of the hook. */
  function HookOpening(companyName: string, jobTitle: string): string {
    "I'm excited to apply for the " + jobTitle + " position at " + companyName + ". "
  }

  /** Paragraph 1: the opening, then the company detail when given, the mission sentence otherwise. */
  function Hook(companyName: string, jobTitle: string, companyDetail: string): (r: string)
    ensures HookOpening(companyName, jobTitle) <= r
    ensures r[|HookOpening(companyName, jobTitle)|..] == if companyDetail != "" then companyDetail else MissionSentence
  {
    HookOpening(companyName, jobTitle) + (if companyDetail != "" then companyDetail else MissionSentence)
  }

  /** The hook names the job title and the company. */
  lemma HookNamesRoleAndCompany(companyName: string, jobTitle: string, companyDetail: string)
    ensures Contains(Hook(companyName, jobTitle, companyDetail), jobTitle)
    ensures Contains(Hook(companyName, jobTitle, companyDetail), companyName)
  {
    var rest := if companyDetail != "" then companyDetail else MissionSentence;
    var a := "I'm excited to apply for the " + jobTitle;
    var b := a + " position at ";
    var c := b + companyName;
    ContainsEnd("I'm excited to apply for the ", jobTitle);
    ContainsLeft(a, " position at ", jobTitle);
    ContainsLeft(b, companyName, jobTitle);
    ContainsEnd(b, companyName);
    ContainsLeft(c, ". ", jobTitle);
    ContainsLeft(c, ". ", companyName);
    ContainsLeft(c + ". ", rest, jobTitle);
    ContainsLeft(c + ". ", rest, companyName);
  }

  /** The skills paragraph 2 draws from: the first 5 technical and first 3 required skills, as a set. */
  function SkillsToMention(jd: JdParser.JdAnalysis): set<string> {
    Elems(Take(jd.technicalSkills, 5) + Take(jd.requiredSkills, 3))
  }

  /** At most 8 candidates, so at most 4 of them are named. */
  lemma SkillsToMentionSize(jd: JdParser.JdAnalysis, order: seq<string>)
    requires Enumerates(order, SkillsToMention(jd))
    ensures |order| <= 8
    ensures |Take(order, 4)| <= 4 && Distinct(Take(order, 4))
  {
    var xs := Take(jd.technicalSkills, 5) + Take(jd.requiredSkills, 3);
    ElemsSize(xs);
    EnumerationSize(order, SkillsToMention(jd));
  }

  /**
   * Paragraph 2 for the candidate skills in the order the set iterates
   * them: the first up to four are named, in a sentence whose shape
   * depends on how many there are.
   */
  function TechnicalMatch(order: seq<string>): (r: string)
    ensures order == [] ==> r == GenericSkills
    ensures order != [] ==> "I'm proficient in " + order[0] <= r
    ensures r != [] && r[|r| - 1] == '.'
  {
    var m := Take(order, 4);
    if |m| >= 3 then
      "I'm proficient in " + m[0] + ", have strong " + m[1] + " skills, and experience with " + m[2] +
      (if |m| > 3 then " and " + m[3] else "") + "."
    else if |m| == 2 then "I'm proficient in " + m[0] + " and have strong " + m[1] + " skills."
    else if |m| == 1 then "I'm proficient in " + m[0] + " and have relevant experience in data analytics."
    else GenericSkills
  }

  /** The pieces `x`, `y`, `z` and whatever `u` contains all occur in `a + x + b + y + c + z + u + v`. */
  lemma PiecesContained(a: string, x: string, b: string, y: string, c: string, z: string, u: string, v: string, w: string)
    ensures var s := a + x + b + y + c + z + u + v;
      Contains(s, x) && Contains(s, y) && Contains(s, z) && (Contains(u, w) ==> Contains(s, w))
  {
    var s0 := a + x;
    var s1 := s0 + b;
    var s2 := s1 + y;
    var s3 := s2 + c;
    var s4 := s3 + z;
    var s5 := s4 + u;
    ContainsEnd(a, x);
    ContainsEnd(s1, y);
    ContainsEnd(s3, z);
    ContainsLeft(s0, b, x);
    ContainsLeft(s1, y, x);
    ContainsLeft(s2, c, x);
    ContainsLeft(s2, c, y);
    ContainsLeft(s3, z, x);
    ContainsLeft(s3, z, y);
    ContainsLeft(s4, u, x);
    ContainsLeft(s4, u, y);
    ContainsLeft(s4, u, z);
    ContainsLeft(s5, v, x);
    ContainsLeft(s5, v, y);
    ContainsLeft(s5, v, z);
    if Contains(u, w) {
      ContainsRight(s4, u, w);
      ContainsLeft(s5, v, w);
    }
  }

  lemma TwoPiecesContained(a: string, x: string, b: string, y: string, v: string)
    ensures Contains(a + x + b + y + v, x) && Contains(a + x + b + y + v, y)
  {
    ContainsEnd(a, x);
    ContainsLeft(a + x, b, x);
    ContainsLeft(a + x + b, y, x);
    ContainsEnd(a + x + b, y);
    ContainsLeft(a + x + b + y, v, x);
    ContainsLeft(a + x + b + y, v, y);
  }

  /** Each of the first four skills is named in paragraph 2. */
  lemma TechnicalMatchNamesSkills(order: seq<string>, i: nat)
    requires i < |order| && i < 4
    ensures Contains(TechnicalMatch(order), order[i])
  {
    var m := Take(order, 4);
    assert m[i] == order[i];
    if |m| >= 3 {
      LongTechnicalMatch(order, i);
    } else if |m| == 2 {
      TwoSkillTechnicalMatch(order, i);
    } else {
      OneSkillTechnicalMatch(order);
    }
  }

  lemma LongTechnicalMatch(order: seq<string>, i: nat)
    requires |Take(order, 4)| >= 3 && i < |Take(order, 4)|
    ensures Contains(TechnicalMatch(order), Take(order, 4)[i])
  {
    LongSkillsSentenceNames(Take(order, 4), i);
  }

  lemma TwoSkillTechnicalMatch(order: seq<string>, i: nat)
    requires |Take(order, 4)| == 2 && i < 2
    ensures Contains(TechnicalMatch(order), Take(order, 4)[i])
  {
    var m := Take(order, 4);
    TwoPiecesContained("I'm proficient in ", m[0], " and have strong ", m[1], " skills.");
  }

  lemma OneSkillTechnicalMatch(order: seq<string>)
    requires |Take(order, 4)| == 1
    ensures Contains(TechnicalMatch(order), Take(order, 4)[0])
  {
    var m := Take(order, 4);
    ContainsEnd("I'm proficient in ", m[0]);
    ContainsLeft("I'm proficient in " + m[0], " and have relevant experience in data analytics.", m[0]);
  }

  lemma LongSkillsSentenceNames(m: seq<string>, i: nat)
    requires 3 <= |m| <= 4 && i < |m|
    ensures Contains("I'm proficient in " + m[0] + ", have strong " + m[1] + " skills, and experience with " + m[2] +
      (if |m| > 3 then " and " + m[3] else "") + ".", m[i])
  {
    var tail := if |m| > 3 then " and " + m[3] else "";
    if |m| > 3 {
      ContainsEnd(" and ", m[3]);
    }
    PiecesContained("I'm proficient in ", m[0], ", have strong ", m[1], " skills, and experience with ", m[2], tail, ".", m[i]);
  }

  /** Paragraph 3: the given achievement, or a generic story. */
  function ExperienceStory(achievement: string): (r: string)
    ensures achievement != "" ==> r == "In my previous role, " + achievement + "."
    ensures achievement == "" ==> r == GenericStory
  {
    if achievement != "" then "In my previous role, " + achievement + "." else GenericStory
  }

  /** The first responsibility as paragraph 4 quotes it: cut to 100 characters plus `...` when longer. */
  function Aspect(responsibility: string): (r: string)
    ensures |r| <= 103
    ensures |responsibility| <= 100 ==> r == responsibility
    ensures |responsibility| > 100 ==> |r| == 103 && r[..100] == responsibility[..100] && r[100..] == "..."
  {
    if |responsibility| > 100 then responsibility[..100] + "..." else responsibility
  }

  /**
   * Paragraph 4: the given aspect of the role; otherwise the first listed
   * responsibility, lowercased and cut to length; otherwise a generic
   * sentence.
   */
  function WhyThisRole(roleAspect: string, responsibilities: seq<string>): (r: string)
    ensures roleAspect == "" && responsibilities != [] ==>
      r == "I'm particularly drawn to this role because of the opportunity to " + Lower(Aspect(responsibilities[0])) + ". This aligns with my experience and interests."
    ensures roleAspect == "" && responsibilities == [] ==> r == GenericInterest
    ensures roleAspect != "" ==> "I'm particularly drawn to this role because " + roleAspect <= r
  {
    if roleAspect != "" then
      "I'm particularly drawn to this role because " + roleAspect + ". The opportunity to contribute to data-driven decision making aligns with my passion for analytics."
    else if responsibilities != [] then
      "I'm particularly drawn to this role because of the opportunity to " + Lower(Aspect(responsibilities[0])) + ". This aligns with my experience and interests."
    else GenericInterest
  }

  /** The logistics parts of paragraph 5, each present only when given. */
  function CloseParts(locationDetail: string, availability: string): (r: seq<string>)
    ensures |r| == (if locationDetail != "" then 1 else 0) + (if availability != "" then 1 else 0)
  {
    (if locationDetail != "" then ["I'm " + locationDetail] else []) +
    (if availability != "" then ["available " + availability] else [])
  }

  /** Paragraph 5: the logistics parts joined with `", "`, or a fixed sentence when neither is given. */
  function Close(locationDetail: string, availability: string): (r: string)
    ensures locationDetail == "" && availability == "" ==> r == GenericClose
    ensures locationDetail != "" || availability != "" ==>
      r == Join(CloseParts(locationDetail, availability), ", ") + CloseTail
  {
    var parts := CloseParts(locationDetail, availability);
    if parts != [] then Join(parts, ", ") + CloseTail else GenericClose
  }

  /** With both given, the location part comes first, then the availability. */
  lemma CloseWithBoth(locationDetail: string, availability: string)
    requires locationDetail != "" && availability != ""
    ensures Close(locationDetail, availability) == ("I'm " + locationDetail) + ", " + ("available " + availability) + CloseTail
  {
    JoinTwo("I'm " + locationDetail, "available " + availability, ", ");
  }

  // ---------------------------------------------------------------------
  // Tone
  // ---------------------------------------------------------------------

  /** The formal phrases and their casual replacements, in dictionary order. */
  const FormalPhrases: seq<(string, string)> := [
    ("I am writing to express my interest", "I'm excited to apply"),
    ("I would like to", "I'd like to"),
    ("I have the ability to", "I can"),
    ("I possess", "I have")
  ]

  predicate NonEmptyPatterns(rules: seq<(string, string)>) {
    forall k :: 0 <= k < |rules| ==> rules[k].0 != []
  }

  /** `text.replace(formal, casual)` for each rule in turn. */
  function ToneApplied(text: string, rules: seq<(string, string)>): string
    requires NonEmptyPatterns(rules)
    decreases |rules|
  {
    if rules == [] then text
    else ToneApplied(ReplaceAll(text, rules[0].0, rules[0].1), rules[1..])
  }

  /** A text with none of the formal phrases in it comes out unchanged. */
  lemma {:induction false} ToneKeepsPlainText(text: string, rules: seq<(string, string)>)
    requires NonEmptyPatterns(rules)
    requires forall k :: 0 <= k < |rules| ==> !Contains(text, rules[k].0)
    ensures ToneApplied(text, rules) == text
    decreases |rules|
  {
    if rules != [] {
      ReplaceAllAbsent(text, rules[0].0, rules[0].1);
      ToneKeepsPlainText(text, rules[1..]);
    }
  }

  lemma JoinFive(a: string, b: string, c: string, d: string, e: string, sep: string)
    ensures Join([a, b, c, d, e], sep) == a + sep + b + sep + c + sep + d + sep + e
  {
    JoinTwo(d, e, sep);
    assert Join([c, d, e], sep) == c + sep + Join([d, e], sep) by { assert [c, d, e][1..] == [d, e]; }
    assert Join([b, c, d, e], sep) == b + sep + Join([c, d, e], sep) by { assert [b, c, d, e][1..] == [c, d, e]; }
    assert Join([a, b, c, d, e], sep) == a + sep + Join([b, c, d, e], sep) by { assert [a, b, c, d, e][1..] == [b, c, d, e]; }
  }

  /** The letter's paragraphs joined with blank lines, tone rules applied. */
  function CompleteLetter(p1: string, p2: string, p3: string, p4: string, p5: string): string {
    ToneApplied(Join([p1, p2, p3, p4, p5], "\n\n"), FormalPhrases)
  }

  /** What the word-count part of `generate_docx` reports. */
  datatype LetterLength = LetterLength(wordCount: nat, under400Words: bool)

  function LengthOf(letterText: string): (r: LetterLength)
    ensures r.wordCount == |SplitWs(letterText)|
    ensures r.wordCount <= (|letterText| + 1) / 2
    ensures r.under400Words <==> r.wordCount < 400
  {
    WordCountBound(letterText);
    var n := WordCount(letterText);
    LetterLength(n, n < 400)
  }

  /** A letter of fewer than 799 characters is always under 400 words. */
  lemma ShortLetterUnder400(letterText: string)
    requires |letterText| < 799
    ensures LengthOf(letterText).under400Words
  {
    WordCountBound(letterText);
  }

  // ---------------------------------------------------------------------
  // The generator
  // ---------------------------------------------------------------------

  /** A generator for one application: the job analysis, the company research and the five paragraph slots. */
  class CoverLetterGenerator {
    const jd: JdParser.JdAnalysis
    const companyResearch: string
    var paragraph1: string
    var paragraph2: string
    var paragraph3: string
    var paragraph4: string
    var paragraph5: string

    constructor(jd: JdParser.JdAnalysis, companyResearch: string)
      ensures this.jd == jd && this.companyResearch == companyResearch
      ensures paragraph1 == "" && paragraph2 == "" && paragraph3 == "" && paragraph4 == "" && paragraph5 == ""
    {
      this.jd := jd;
      this.companyResearch := companyResearch;
      paragraph1, paragraph2, paragraph3, paragraph4, paragraph5 := "", "", "", "", "";
    }

    method GenerateParagraph1Hook(companyName: string, jobTitle: string, companyDetail: string) returns (hook: string)
      modifies this
      ensures hook == Hook(companyName, jobTitle, companyDetail)
      ensures paragraph1 == hook
      ensures paragraph2 == old(paragraph2) && paragraph3 == old(paragraph3) && paragraph4 == old(paragraph4) && paragraph5 == old(paragraph5)
    {
      if companyDetail != "" {
        hook := "I'm excited to apply for the " + jobTitle + " position at " + companyName + ". " + companyDetail;
      } else {
        hook := "I'm excited to apply for the " + jobTitle + " position at " + companyName + ". " + MissionSentence;
      }
      paragraph1 := hook;
    }

    /** Paragraph 2, with the candidate skills in the order the set iterates them (`order`). */
    method GenerateParagraph2TechnicalMatch() returns (text: string, ghost order: seq<string>)
      modifies this
      ensures Enumerates(order, SkillsToMention(jd))
      ensures text == TechnicalMatch(order)
      ensures paragraph2 == text
      ensures paragraph1 == old(paragraph1) && paragraph3 == old(paragraph3) && paragraph4 == old(paragraph4) && paragraph5 == old(paragraph5)
    {
      var technicalSkills := Take(jd.technicalSkills, 5);
      var requiredSkills := Take(jd.requiredSkills, 3);
      var candidates := SetToSeq(Elems(technicalSkills + requiredSkills));
      order := candidates;
      var skills := Take(candidates, 4);
      if |skills| >= 3 {
        text := "I'm proficient in " + skills[0] + ", have strong " + skills[1] + " skills, and experience with " + skills[2];
        if |skills| > 3 {
          text := text + " and " + skills[3];
        }
        text := text + ".";
      } else if |skills| == 2 {
        text := "I'm proficient in " + skills[0] + " and have strong " + skills[1] + " skills.";
      } else if |skills| == 1 {
        text := "I'm proficient in " + skills[0] + " and have relevant experience in data analytics.";
      } else {
        text := GenericSkills;
      }
      paragraph2 := text;
    }

    method GenerateParagraph3ExperienceStory(achievement: string) returns (text: string)
      modifies this
      ensures text == ExperienceStory(achievement) && paragraph3 == text
      ensures paragraph1 == old(paragraph1) && paragraph2 == old(paragraph2) && paragraph4 == old(paragraph4) && paragraph5 == old(paragraph5)
    {
      if achievement != "" {
        text := "In my previous role, " + achievement + ".";
      } else {
        text := GenericStory;
      }
      paragraph3 := text;
    }

    method GenerateParagraph4WhyThisRole(roleAspect: string) returns (text: string)
      modifies this
      ensures text == WhyThisRole(roleAspect, jd.structure.responsibilities) && paragraph4 == text
      ensures paragraph1 == old(paragraph1) && paragraph2 == old(paragraph2) && paragraph3 == old(paragraph3) && paragraph5 == old(paragraph5)
    {
      if roleAspect != "" {
        text := "I'm particularly drawn to this role because " + roleAspect + ". The opportunity to contribute to data-driven decision making aligns with my passion for analytics.";
      } else {
        var responsibilities := jd.structure.responsibilities;
        if responsibilities != [] {
          var first := responsibilities[0];
          var aspect := Aspect(first);
          text := "I'm particularly drawn to this role because of the opportunity to " + Lower(aspect) + ". This aligns with my experience and interests.";
        } else {
          text := GenericInterest;
        }
      }
      paragraph4 := text;
    }

    method GenerateParagraph5Close(locationDetail: string, availability: string) returns (text: string)
      modifies this
      ensures text == Close(locationDetail, availability) && paragraph5 == text
      ensures paragraph1 == old(paragraph1) && paragraph2 == old(paragraph2) && paragraph3 == old(paragraph3) && paragraph4 == old(paragraph4)
    {
      var parts: seq<string> := [];
      if locationDetail != "" {
        parts := parts + ["I'm " + locationDetail];
      }
      if availability != "" {
        parts := parts + ["available " + availability];
      }
      if parts != [] {
        text := Join(parts, ", ") + CloseTail;
      } else {
        text := GenericClose;
      }
      paragraph5 := text;
    }

    /** `apply_tone_rules`: each formal phrase replaced in turn. */
    method ApplyToneRules(text: string) returns (r: string)
      ensures r == ToneApplied(text, FormalPhrases)
    {
      r := text;
      for k := 0 to |FormalPhrases|
        invariant ToneApplied(r, FormalPhrases[k..]) == ToneApplied(text, FormalPhrases)
      {
        r := ReplaceAll(r, FormalPhrases[k].0, FormalPhrases[k].1);
        assert FormalPhrases[k..][1..] == FormalPhrases[k + 1..];
      }
    }

    /** `generate_complete_letter`: all five paragraphs generated, joined, and the tone rules applied. */
    method GenerateCompleteLetter(companyName: string, jobTitle: string, companyDetail: string, achievement: string,
                                  roleAspect: string, locationDetail: string, availability: string)
      returns (letter: string, ghost order: seq<string>)
      modifies this
      ensures Enumerates(order, SkillsToMention(jd))
      ensures paragraph1 == Hook(companyName, jobTitle, companyDetail)
      ensures paragraph2 == TechnicalMatch(order)
      ensures paragraph3 == ExperienceStory(achievement)
      ensures paragraph4 == WhyThisRole(roleAspect, jd.structure.responsibilities)
      ensures paragraph5 == Close(locationDetail, availability)
      ensures letter == CompleteLetter(paragraph1, paragraph2, paragraph3, paragraph4, paragraph5)
    {
      var p1 := GenerateParagraph1Hook(companyName, jobTitle, companyDetail);
      var p2;
      p2, order := GenerateParagraph2TechnicalMatch();
      var p3 := GenerateParagraph3ExperienceStory(achievement);
      var p4 := GenerateParagraph4WhyThisRole(roleAspect);
      var p5 := GenerateParagraph5Close(locationDetail, availability);
      var fullText := p1 + "\n\n" + p2 + "\n\n" + p3 + "\n\n" + p4 + "\n\n" + p5;
      JoinFive(p1, p2, p3, p4, p5, "\n\n");
      letter := ApplyToneRules(fullText);
    }
  }
}
