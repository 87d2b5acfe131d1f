/**
 * `utils.py`, `parse_resume_to_schema`: turns a rewritten resume into the
 * structured record of `models.py`.  Regular-expression matching is not
 * modelled: what each pattern captures in the text is an input, as is the
 * outcome of parsing and validating the first `{...}` block as JSON.
 */
module ResumeParser {
  import opened Wrappers
  import opened TextUtil

  /** `models.Job`. */
  datatype Job = Job(title: string, company: string, rewrittenBullets: seq<string>)

  /** `models.ResumeSchema`. */
  datatype ResumeSchema = ResumeSchema(
    personalInfo: map<string, string>,
    summary: string,
    workExperience: seq<Job>,
    skills: seq<string>)

  /** The three groups of one match of the job pattern, unstripped. */
  datatype JobCapture = JobCapture(title: string, company: string, bullets: string)

  /**
   * What the text path's patterns capture: group 1 of the name, email,
   * phone, summary and skills patterns when they match, and every job
   * match inside the work section (none when there is no work section).
   */
  datatype TextCaptures = TextCaptures(
    name: Option<string>,
    email: Option<string>,
    phone: Option<string>,
    summary: Option<string>,
    jobs: seq<JobCapture>,
    skills: Option<string>)

  const DefaultSummary := "Professional summary"
  const NoExperience := "No experience listed"
  const NoSkills := "No skills listed"

  // ---------------------------------------------------------------------
  // Personal information
  // ---------------------------------------------------------------------

  /** No contact detail was captured. */
  predicate NoContact(c: TextCaptures) {
    c.name.None? && c.email.None? && c.phone.None?
  }

  /** `info[key] = value.strip()` when the detail was captured. */
  function WithDetail(info: map<string, string>, key: string, value: Option<string>): map<string, string> {
    if value.Some? then info[key := Strip(value.value)] else info
  }

  /** The captured details, stripped, keyed by name. */
  function Details(c: TextCaptures): map<string, string> {
    WithDetail(WithDetail(WithDetail(map[], "name", c.name), "email", c.email), "phone", c.phone)
  }

  /** `personal_info`: the captured details, `{'name': 'N/A'}` when there are none. */
  function PersonalInfo(c: TextCaptures): map<string, string> {
    if Details(c) == map[] then map["name" := "N/A"] else Details(c)
  }

  /**
   * One stripped entry per captured detail, and only those; the single
   * placeholder entry exactly when nothing was captured.
   */
  lemma PersonalInfoEntries(c: TextCaptures)
    ensures var r := PersonalInfo(c);
      (NoContact(c) ==> r == map["name" := "N/A"]) &&
      (!NoContact(c) ==>
        ("name" in r <==> c.name.Some?) && ("email" in r <==> c.email.Some?) && ("phone" in r <==> c.phone.Some?)) &&
      (c.name.Some? ==> r["name"] == Strip(c.name.value)) &&
      (c.email.Some? ==> r["email"] == Strip(c.email.value)) &&
      (c.phone.Some? ==> r["phone"] == Strip(c.phone.value)) &&
      r.Keys <= {"name", "email", "phone"} && |r| >= 1
  {
    var d := Details(c);
    if c.name.Some? {
      assert "name" in d;
    }
    if c.email.Some? {
      assert "email" in d;
    }
  }

  // ---------------------------------------------------------------------
  // Job bullets
  // ---------------------------------------------------------------------

  /** Starts with one of the bullet glyphs `-`, `•`, `*`. */
  predicate IsBulletLine(s: string) {
    s != [] && (s[0] == '-' || s[0] == '•' || s[0] == '*')
  }

  /** `[b.strip() for b in lines if b.strip() and b.strip().startswith(('-', '•', '*'))]`. */
  function BulletLines(lines: seq<string>): (r: seq<string>)
    ensures |r| <= |lines|
    ensures forall k :: 0 <= k < |r| ==> IsBulletLine(r[k])
  {
    if lines == [] then []
    else
      var rest := BulletLines(lines[..|lines| - 1]);
      var b := Strip(lines[|lines| - 1]);
      if IsBulletLine(b) then rest + [b] else rest
  }

  /** Stripping twice is stripping once. */
  lemma StripIdempotent(s: string)
    ensures Strip(Strip(s)) == Strip(s)
  {
    var r := Strip(s);
    if r != [] {
      assert !IsSpace(r[0]) && !IsSpace(r[|r| - 1]);
      assert SpanSpace(r) == 0;
      assert r[0..] == r;
      assert TrailingSpace(r) == 0;
    }
  }

  /** The bullets of one job: the marked lines of its stripped block, or the whole block when there are none. */
  function JobBullets(block: string): (r: seq<string>)
    ensures r != []
    ensures (forall k :: 0 <= k < |r| ==> IsBulletLine(r[k])) || r == [Strip(block)]
  {
    var text := Strip(block);
    var bullets := BulletLines(SplitOn(text, '\n'));
    if bullets == [] then [text] else bullets
  }

  /** A line whose stripped form starts with a bullet glyph gives a bullet. */
  lemma {:induction false} BulletLineKept(lines: seq<string>, k: nat)
    requires k < |lines| && IsBulletLine(Strip(lines[k]))
    ensures Strip(lines[k]) in BulletLines(lines)
  {
    if k < |lines| - 1 {
      assert lines[..|lines| - 1][k] == lines[k];
      BulletLineKept(lines[..|lines| - 1], k);
    }
  }

  /** Every bullet is the stripped form of one of the lines. */
  lemma {:induction false} BulletLineSource(lines: seq<string>, b: string)
    requires b in BulletLines(lines)
    ensures exists k :: 0 <= k < |lines| && Strip(lines[k]) == b
  {
    var init := lines[..|lines| - 1];
    if b in BulletLines(init) {
      BulletLineSource(init, b);
      var k :| 0 <= k < |init| && Strip(init[k]) == b;
      assert lines[k] == init[k];
    } else {
      assert Strip(lines[|lines| - 1]) == b;
    }
  }

  /** The bullets are exactly the stripped lines that start with a bullet glyph. */
  lemma BulletLinesMembers(lines: seq<string>)
    ensures forall b :: b in BulletLines(lines) <==>
      IsBulletLine(b) && exists k :: 0 <= k < |lines| && Strip(lines[k]) == b
  {
    forall b | b in BulletLines(lines)
      ensures IsBulletLine(b) && exists k :: 0 <= k < |lines| && Strip(lines[k]) == b
    {
      BulletLineSource(lines, b);
    }
    forall k | 0 <= k < |lines| && IsBulletLine(Strip(lines[k]))
      ensures Strip(lines[k]) in BulletLines(lines)
    {
      BulletLineKept(lines, k);
    }
  }

  /**
   * The whole stripped block is kept as the one bullet exactly when none of
   * its lines is a bullet line; otherwise the bullets are those lines.
   */
  lemma BlockFallback(block: string)
    ensures var lines := SplitOn(Strip(block), '\n');
      ((forall k :: 0 <= k < |lines| ==> !IsBulletLine(Strip(lines[k]))) ==> JobBullets(block) == [Strip(block)]) &&
      ((exists k :: 0 <= k < |lines| && IsBulletLine(Strip(lines[k]))) ==>
         forall b :: b in JobBullets(block) <==> IsBulletLine(b) && exists k :: 0 <= k < |lines| && Strip(lines[k]) == b)
  {
    var lines := SplitOn(Strip(block), '\n');
    BulletLinesMembers(lines);
    BulletLinesEmptyIff(lines);
  }

  /** No bullets are found exactly when no stripped line starts with a bullet glyph. */
  lemma BulletLinesEmptyIff(lines: seq<string>)
    ensures BulletLines(lines) == [] <==> forall k :: 0 <= k < |lines| ==> !IsBulletLine(Strip(lines[k]))
  {
    var bullets := BulletLines(lines);
    if bullets != [] {
      BulletLineSource(lines, bullets[0]);
    }
    forall k | 0 <= k < |lines| && IsBulletLine(Strip(lines[k]))
      ensures bullets != []
    {
      BulletLineKept(lines, k);
    }
  }

  /** `Job(title=…, company=…, rewritten_bullets=…)` from one match. */
  function JobOf(m: JobCapture): Job {
    Job(Strip(m.title), Strip(m.company), JobBullets(m.bullets))
  }

  // ---------------------------------------------------------------------
  // Skills
  // ---------------------------------------------------------------------

  /** The separators of the skills list: `,`, `;`, `•`, `-` and newline. */
  predicate IsSkillSeparator(c: char) {
    c == ',' || c == ';' || c == '•' || c == '-' || c == '\n'
  }

  /** The least index at or after `from` holding a separator, or `|s|`. */
  function NextSeparator(s: string, from: nat): (i: nat)
    requires from <= |s|
    ensures from <= i <= |s|
    ensures forall j :: from <= j < i ==> !IsSkillSeparator(s[j])
    ensures i < |s| ==> IsSkillSeparator(s[i])
    decreases |s| - from
  {
    if from == |s| || IsSkillSeparator(s[from]) then from else NextSeparator(s, from + 1)
  }

  /** `re.split(r'[,;•\-\n]', s)`: the pieces between separators, always at least one. */
  function SplitSkills(s: string): (r: seq<string>)
    ensures |r| >= 1
    ensures forall k, j :: 0 <= k < |r| && 0 <= j < |r[k]| ==> !IsSkillSeparator(r[k][j])
    decreases |s|
  {
    var i := NextSeparator(s, 0);
    if i == |s| then [s] else [s[..i]] + SplitSkills(s[i + 1..])
  }

  /** The number of separators in `s`. */
  function SeparatorCount(s: string): nat {
    if s == [] then 0 else (if IsSkillSeparator(s[0]) then 1 else 0) + SeparatorCount(s[1..])
  }

  /** A text with `n` separators splits into `n + 1` pieces. */
  lemma {:induction false} SplitSkillsCount(s: string)
    ensures |SplitSkills(s)| == SeparatorCount(s) + 1
    decreases |s|
  {
    var i := NextSeparator(s, 0);
    NoSeparatorBefore(s, i);
    if i < |s| {
      SplitSkillsCount(s[i + 1..]);
      assert s[i..] == [s[i]] + s[i + 1..];
    }
  }

  /** Skipping a separator-free prefix does not change the count. */
  lemma {:induction false} NoSeparatorBefore(s: string, i: nat)
    requires i <= |s|
    requires forall j :: 0 <= j < i ==> !IsSkillSeparator(s[j])
    ensures SeparatorCount(s) == SeparatorCount(s[i..])
  {
    if i > 0 {
      NoSeparatorBefore(s[1..], i - 1);
      assert s[1..][i - 1..] == s[i..];
    }
  }

  /** `[p.strip() for p in pieces if p.strip()]`. */
  function StrippedNonEmpty(pieces: seq<string>): (r: seq<string>)
    ensures |r| <= |pieces|
    ensures forall k :: 0 <= k < |r| ==> r[k] != []
  {
    if pieces == [] then []
    else
      var rest := StrippedNonEmpty(pieces[..|pieces| - 1]);
      var p := Strip(pieces[|pieces| - 1]);
      if p != [] then rest + [p] else rest
  }

  /** Each piece kept is the stripped form of a piece, so it holds no separator. */
  lemma {:induction false} StrippedPiecesHaveNoSeparator(pieces: seq<string>)
    requires forall k, j :: 0 <= k < |pieces| && 0 <= j < |pieces[k]| ==> !IsSkillSeparator(pieces[k][j])
    ensures forall k, j :: 0 <= k < |StrippedNonEmpty(pieces)| && 0 <= j < |StrippedNonEmpty(pieces)[k]| ==>
      !IsSkillSeparator(StrippedNonEmpty(pieces)[k][j])
  {
    if pieces != [] {
      var last := pieces[|pieces| - 1];
      StrippedPiecesHaveNoSeparator(pieces[..|pieces| - 1]);
      StripKeepsChars(last);
      var p := Strip(last);
      forall j | 0 <= j < |p|
        ensures !IsSkillSeparator(p[j])
      {
        assert p[j] in p;
        assert p[j] in last;
      }
    }
  }

  /** Every piece kept is the stripped form of a piece of the split. */
  lemma {:induction false} StrippedPieceSource(pieces: seq<string>, p: string)
    requires p in StrippedNonEmpty(pieces)
    ensures exists k :: 0 <= k < |pieces| && Strip(pieces[k]) == p
  {
    var init := pieces[..|pieces| - 1];
    if p in StrippedNonEmpty(init) {
      StrippedPieceSource(init, p);
      var k :| 0 <= k < |init| && Strip(init[k]) == p;
      assert pieces[k] == init[k];
    } else {
      assert Strip(pieces[|pieces| - 1]) == p;
    }
  }

  /** A piece that is not blank is kept, stripped. */
  lemma {:induction false} StrippedPieceKept(pieces: seq<string>, k: nat)
    requires k < |pieces| && Strip(pieces[k]) != []
    ensures Strip(pieces[k]) in StrippedNonEmpty(pieces)
  {
    if k < |pieces| - 1 {
      assert pieces[..|pieces| - 1][k] == pieces[k];
      StrippedPieceKept(pieces[..|pieces| - 1], k);
    }
  }

  /** The pieces kept are exactly the non-blank pieces, stripped; each is its own stripped form. */
  lemma StrippedNonEmptyMembers(pieces: seq<string>)
    ensures forall p :: p in StrippedNonEmpty(pieces) <==>
      p != [] && exists k :: 0 <= k < |pieces| && Strip(pieces[k]) == p
    ensures forall p :: p in StrippedNonEmpty(pieces) ==> Strip(p) == p
  {
    forall p | p in StrippedNonEmpty(pieces)
      ensures p != [] && Strip(p) == p && exists k :: 0 <= k < |pieces| && Strip(pieces[k]) == p
    {
      StrippedPieceSource(pieces, p);
      var k :| 0 <= k < |pieces| && Strip(pieces[k]) == p;
      StripIdempotent(pieces[k]);
    }
    forall k | 0 <= k < |pieces| && Strip(pieces[k]) != []
      ensures Strip(pieces[k]) in StrippedNonEmpty(pieces)
    {
      StrippedPieceKept(pieces, k);
    }
  }

  /** The skills list before the default is applied: nothing without a skills section. */
  function SkillPieces(c: TextCaptures): seq<string> {
    if c.skills.Some? then StrippedNonEmpty(SplitSkills(c.skills.value)) else []
  }

  // ---------------------------------------------------------------------
  // The parse
  // ---------------------------------------------------------------------

  /** One job per match, in match order. */
  function JobsOf(ms: seq<JobCapture>): (r: seq<Job>)
    ensures |r| == |ms|
    ensures forall k :: 0 <= k < |ms| ==> r[k] == JobOf(ms[k])
  {
    if ms == [] then [] else JobsOf(ms[..|ms| - 1]) + [JobOf(ms[|ms| - 1])]
  }

  /** `work_experience`: the jobs found, or the single placeholder job when none was found. */
  function WorkExperience(c: TextCaptures): (r: seq<Job>)
    ensures r != []
    ensures forall k :: 0 <= k < |r| ==> r[k].rewrittenBullets != []
    ensures c.jobs == [] ==> r == [Job("N/A", "N/A", [NoExperience])]
    ensures c.jobs != [] ==> r == JobsOf(c.jobs)
  {
    if c.jobs == [] then [Job("N/A", "N/A", [NoExperience])] else JobsOf(c.jobs)
  }

  /** `skills`: the parsed pieces, or the placeholder when there are none. */
  function Skills(c: TextCaptures): (r: seq<string>)
    ensures r != []
    ensures forall k :: 0 <= k < |r| ==> r[k] != []
    ensures SkillPieces(c) == [] ==> r == [NoSkills]
    ensures SkillPieces(c) != [] ==> r == SkillPieces(c)
  {
    if SkillPieces(c) == [] then [NoSkills] else SkillPieces(c)
  }

  /** `summary`: the stripped capture, or the default text. */
  function Summary(c: TextCaptures): (r: string)
    ensures c.summary.None? ==> r == DefaultSummary
    ensures c.summary.Some? ==> r == Strip(c.summary.value) && |r| <= |c.summary.value|
  {
    if c.summary.Some? then Strip(c.summary.value) else DefaultSummary
  }

  /** The text path's record. */
  function TextResume(c: TextCaptures): ResumeSchema {
    ResumeSchema(PersonalInfo(c), Summary(c), WorkExperience(c), Skills(c))
  }

  /**
   * `parse_resume_to_schema(text)`: the validated JSON record when the
   * text holds one, the text path's record otherwise.
   */
  function ParsedResume(json: Option<ResumeSchema>, c: TextCaptures): ResumeSchema {
    if json.Some? then json.value else TextResume(c)
  }

  /**
   * Without a JSON record no list is left empty: there is always a job,
   * every job has at least one bullet, there is always a skill and no skill
   * is empty.  A JSON record is taken as is.
   */
  lemma ParsedResumeComplete(json: Option<ResumeSchema>, c: TextCaptures)
    ensures json.Some? ==> ParsedResume(json, c) == json.value
    ensures json.None? ==>
      var r := ParsedResume(json, c);
      r.workExperience != [] && r.skills != [] &&
      (forall k :: 0 <= k < |r.workExperience| ==> r.workExperience[k].rewrittenBullets != []) &&
      (forall k :: 0 <= k < |r.skills| ==> r.skills[k] != [])
  {
    if json.None? {
      var r := TextResume(c);
      assert r.workExperience == WorkExperience(c);
      assert r.skills == Skills(c);
    }
  }

  /**
   * With a skills section, the skills are exactly the non-blank pieces
   * between separators, stripped, and none contains a separator.
   */
  lemma SkillsFromSection(c: TextCaptures)
    requires c.skills.Some? && SkillPieces(c) != []
    ensures var pieces := SplitSkills(c.skills.value);
      forall p :: p in Skills(c) <==> p != [] && exists k :: 0 <= k < |pieces| && Strip(pieces[k]) == p
    ensures forall p :: p in Skills(c) ==> Strip(p) == p
    ensures forall k, j :: 0 <= k < |Skills(c)| && 0 <= j < |Skills(c)[k]| ==> !IsSkillSeparator(Skills(c)[k][j])
  {
    StrippedNonEmptyMembers(SplitSkills(c.skills.value));
    StrippedPiecesHaveNoSeparator(SplitSkills(c.skills.value));
  }

  /** Extending the matches by one adds that match's job. */
  lemma JobsOfStep(matches: seq<JobCapture>, k: nat)
    requires k < |matches|
    ensures JobsOf(matches[..k + 1]) == JobsOf(matches[..k]) + [JobOf(matches[k])]
  {
    assert matches[..k + 1][..k] == matches[..k];
  }

  /** The loop over the job matches: one job per match, in order. */
  method CollectJobs(matches: seq<JobCapture>) returns (jobs: seq<Job>)
    ensures jobs == JobsOf(matches)
  {
    jobs := [];
    var k := 0;
    while k < |matches|
      invariant 0 <= k <= |matches|
      invariant jobs == JobsOf(matches[..k])
    {
      var m := matches[k];
      var bulletsText := Strip(m.bullets);
      var bullets := BulletLines(SplitOn(bulletsText, '\n'));
      if bullets == [] {
        bullets := [bulletsText];
      }
      var job := Job(Strip(m.title), Strip(m.company), bullets);
      JobsOfStep(matches, k);
      jobs := jobs + [job];
      k := k + 1;
    }
    assert matches[..k] == matches;
  }

  /** The contact details captured, in the order the source records them. */
  method CollectDetails(c: TextCaptures) returns (personalInfo: map<string, string>)
    ensures personalInfo == Details(c)
  {
    personalInfo := map[];
    if c.name.Some? {
      personalInfo := personalInfo["name" := Strip(c.name.value)];
    }
    ghost var withName := personalInfo;
    assert withName == WithDetail(map[], "name", c.name);
    if c.email.Some? {
      personalInfo := personalInfo["email" := Strip(c.email.value)];
    }
    ghost var withEmail := personalInfo;
    assert withEmail == WithDetail(withName, "email", c.email);
    if c.phone.Some? {
      personalInfo := personalInfo["phone" := Strip(c.phone.value)];
    }
    assert personalInfo == WithDetail(withEmail, "phone", c.phone);
  }

  /** `parse_resume_to_schema`, filling the record step by step as the source does. */
  method ParseResumeToSchema(json: Option<ResumeSchema>, c: TextCaptures) returns (r: ResumeSchema)
    ensures r == ParsedResume(json, c)
  {
    if json.Some? {
      return json.value;
    }
    var personalInfo := CollectDetails(c);
    var summary := if c.summary.Some? then Strip(c.summary.value) else DefaultSummary;
    var workExperience := CollectJobs(c.jobs);
    var skills: seq<string> := [];
    if c.skills.Some? {
      skills := StrippedNonEmpty(SplitSkills(c.skills.value));
    }
    if personalInfo == map[] {
      personalInfo := map["name" := "N/A"];
    }
    if workExperience == [] {
      workExperience := [Job("N/A", "N/A", [NoExperience])];
    }
    if skills == [] {
      skills := [NoSkills];
    }
    assert personalInfo == PersonalInfo(c);
    assert workExperience == WorkExperience(c);
    assert skills == Skills(c);
    r := ResumeSchema(personalInfo, summary, workExperience, skills);
  }
}
