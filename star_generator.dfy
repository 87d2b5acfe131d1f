/**
 * `src/assistants/star_generator.py`: answers to competency questions in
 * the Situation, Task, Action, Result shape.  The optional parser is
 * represented by what its `extract_all` reports (`None` without a parser).
 */
module StarGenerator {
  import opened Wrappers
  import opened TextUtil
  import JdParser

  /** The keywords an answer may use: the first two technical skills, none without a parser. */
  function StarKeywords(jd: Option<JdParser.JdAnalysis>): (r: seq<string>)
    ensures |r| <= 2
    ensures jd.None? ==> r == []
    ensures jd.Some? ==> r <= jd.value.technicalSkills
    ensures jd.Some? && |jd.value.technicalSkills| >= 2 ==> |r| == 2
  {
    if jd.Some? then Take(jd.value.technicalSkills, 2) else []
  }

  /** `" This involved using k1"`, with `" and k2"` for a second keyword; nothing without keywords. */
  function KeywordClause(keywords: seq<string>): string {
    if keywords == [] then ""
    else " This involved using " + keywords[0] + (if |keywords| > 1 then " and " + keywords[1] else "")
  }

  /** The action section: the action, the keyword clause and a full stop. */
  function ActionSection(action: string, keywords: seq<string>): string {
    "Action: " + action + KeywordClause(keywords) + "."
  }

  /**
   * `generate_star_answer(question, situation, task, action, result)`: the
   * four labelled sections in order, separated by blank lines.
   */
  function GenerateStarAnswer(jd: Option<JdParser.JdAnalysis>, question: string,
                              situation: string, task: string, action: string, result: string): (r: string)
    ensures r == Join(["Situation: " + situation, "Task: " + task,
                       ActionSection(action, StarKeywords(jd)), "Result: " + result], "\n\n")
  {
    var keywords := StarKeywords(jd);
    var s := "Situation: " + situation;
    var t := "Task: " + task;
    var a := ActionSection(action, keywords);
    var res := "Result: " + result;
    var blank := "\n\n";
    JoinFour(s, t, a, res, blank);
    s + blank + t + blank + a + blank + res
  }

  /** Where the four sections of `a sep b sep c sep d` start. */
  lemma SectionPositions(a: string, b: string, c: string, d: string, sep: string)
    ensures var r := a + sep + b + sep + c + sep + d;
      a <= r &&
      OccursAt(r, sep + b, |a|) &&
      OccursAt(r, sep + c, |a| + |sep| + |b|) &&
      OccursAt(r, sep + d, |a| + |sep| + |b| + |sep| + |c|) &&
      |r| == |a| + |sep| + |b| + |sep| + |c| + |sep| + |d|
  {
    var r := a + sep + b + sep + c + sep + d;
    assert r == a + (sep + b) + (sep + c) + (sep + d);
    assert r[|a|..|a| + |sep + b|] == sep + b;
    assert r[|a| + |sep + b|..|a| + |sep + b| + |sep + c|] == sep + c;
    assert r[|a| + |sep + b| + |sep + c|..] == sep + d;
  }

  /**
   * The answer opens with the situation; then its Task, Action and
   * Result sections follow at increasing positions, each after a blank line.
   */
  lemma StarSectionsInOrder(jd: Option<JdParser.JdAnalysis>, question: string,
                            situation: string, task: string, action: string, result: string)
    ensures var r := GenerateStarAnswer(jd, question, situation, task, action, result);
      var a := ActionSection(action, StarKeywords(jd));
      var i := |"Situation: " + situation| + 2;
      var j := i + |"Task: " + task| + 2;
      var k := j + |a| + 2;
      ("Situation: " + situation) <= r &&
      OccursAt(r, "\n\n" + ("Task: " + task), i - 2) &&
      OccursAt(r, "\n\n" + a, j - 2) &&
      OccursAt(r, "\n\n" + ("Result: " + result), k - 2) && |r| == k + |"Result: " + result|
  {
    SectionPositions("Situation: " + situation, "Task: " + task, ActionSection(action, StarKeywords(jd)),
                     "Result: " + result, "\n\n");
  }

  /** A piece `x` or `x y` inside the third section of `s sep t sep c sep res` occurs in the whole. */
  lemma InThirdSection(s: string, t: string, p: string, x: string, y: string, q: string, res: string, sep: string)
    ensures Contains(s + sep + t + sep + (p + (x + y) + q) + sep + res, x)
    ensures Contains(s + sep + t + sep + (p + (x + y) + q) + sep + res, x + y)
  {
    var c := p + (x + y) + q;
    var pre := s + sep + t + sep;
    ContainsMiddle(p, x + y, q);
    ContainsMiddle(p, x, y + q);
    assert p + x + (y + q) == c;
    forall z | z == x || z == x + y
      ensures Contains(pre + c + sep + res, z)
    {
      ContainsRight(pre, c, z);
      ContainsLeft(pre + c, sep, z);
      ContainsLeft(pre + c + sep, res, z);
    }
  }

  /**
   * With a parser that found skills, the first is named after "This
   * involved using", and a second one follows after " and ".
   */
  lemma StarAnswerNamesKeywords(jd: Option<JdParser.JdAnalysis>, question: string,
                                situation: string, task: string, action: string, result: string)
    requires jd.Some? && jd.value.technicalSkills != []
    ensures var r := GenerateStarAnswer(jd, question, situation, task, action, result);
      var skills := jd.value.technicalSkills;
      Contains(r, " This involved using " + skills[0]) &&
      (|skills| >= 2 ==> Contains(r, " This involved using " + skills[0] + " and " + skills[1]))
  {
    var skills := jd.value.technicalSkills;
    var keywords := StarKeywords(jd);
    assert keywords[0] == skills[0];
    var first := " This involved using " + skills[0];
    var tail := if |keywords| > 1 then " and " + keywords[1] else "";
    assert KeywordClause(keywords) == first + tail;
    var a := ActionSection(action, keywords);
    assert a == "Action: " + action + (first + tail) + ".";
    var r := GenerateStarAnswer(jd, question, situation, task, action, result);
    assert r == "Situation: " + situation + "\n\n" + ("Task: " + task) + "\n\n" + a + "\n\n" + ("Result: " + result);
    InThirdSection("Situation: " + situation, "Task: " + task, "Action: " + action, first, tail, ".",
                   "Result: " + result, "\n\n");
    if |skills| >= 2 {
      assert tail == " and " + skills[1];
      assert first + tail == " This involved using " + skills[0] + " and " + skills[1];
    }
  }

  /** The four phrases of a template. */
  datatype Template = Template(situation: string, task: string, action: string, result: string)

  const ProjectTemplate := Template(
    "I was working on a critical project that required", "My task was to",
    "I took the following actions", "This resulted in")

  const Templates: map<string, Template> := map[
    "project" := ProjectTemplate,
    "leadership" := Template("I was leading a team when", "I needed to", "I implemented", "The outcome was"),
    "problem-solving" := Template(
      "I encountered a challenging problem where", "I had to", "I solved this by", "The solution led to")
  ]

  /** `templates.get(experience_type, templates['project'])`. */
  function TemplateFor(experienceType: string): (t: Template)
    ensures experienceType in Templates ==> t == Templates[experienceType]
    ensures experienceType !in Templates ==> t == ProjectTemplate
    ensures t in Templates.Values
  {
    if experienceType in Templates then Templates[experienceType] else Templates["project"]
  }

  /** `generate_from_template(question, experience_type)`: the template's phrases fill the four sections unchanged. */
  function GenerateFromTemplate(jd: Option<JdParser.JdAnalysis>, question: string, experienceType: string): (r: string)
    ensures var t := TemplateFor(experienceType);
      r == Join(["Situation: " + t.situation, "Task: " + t.task,
                 ActionSection(t.action, StarKeywords(jd)), "Result: " + t.result], "\n\n")
  {
    var t := TemplateFor(experienceType);
    GenerateStarAnswer(jd, question, t.situation, t.task, t.action, t.result)
  }

  /** An unknown experience type gives the project answer. */
  lemma UnknownTypeIsProject(jd: Option<JdParser.JdAnalysis>, question: string, experienceType: string)
    requires experienceType != "project" && experienceType != "leadership" && experienceType != "problem-solving"
    ensures GenerateFromTemplate(jd, question, experienceType) == GenerateFromTemplate(jd, question, "project")
  {
    assert experienceType !in Templates;
  }
}
