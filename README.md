# resume-critic core, modelled in Dafny

This project models the rule-based text and document logic of resume-critic, a
job-application assistant. The modelled core is:

- the ATS (applicant tracking system) compatibility scorer;
- the keyword matcher and the ATS system detector;
- the job-description parser and the job-description structure analyser;
- the CV quality validator and the application checklists;
- the CV tailoring engine and the DOCX scan helpers;
- the cover-letter, STAR-answer and application-form text builders;
- the salary lookup and the application analytics;
- the fallback resume parser of `utils.py`.

Each source file is one Dafny module, in a file named after it. Two shared
modules complete the project. `TextUtil` (text.dfy) holds Python's `str`
operations over `seq<char>`. `Patterns` (patterns.dfy) holds the regular
expressions the parsers share, written out as functions.

The source's shape decides the model's shape:

- Objects whose methods update their fields are classes with those fields:
  - the ATS checker, with its `issues` list and `score`;
  - the checklist progress map;
  - the tailoring engine's paragraph list and operation log;
  - the cover-letter slots;
  - the keyword matcher;
  - the job-description parser;
  - the structure analyser;
  - the quality validator;
  - the detector's shared signature table.
- Loops in the source are methods with loop invariants. Each is proved equal to a specification function,
  and the properties the source promises are lemmas about those functions.
- Straight-line builders and lookups are functions: salary, STAR answers,
  application form, cover-letter paragraphs and analytics rates.

Modelling conventions:

- A python-docx `Document` is a snapshot datatype (`Docx.Document`). It holds:
  - paragraphs of runs, each run with a text, an optional font name, an optional size and a bold flag;
  - the table count;
  - each section's header and footer paragraphs, and an optional column count;
  - the relationship targets.

  Font sizes are in half-points, so 12 pt is 24.
- The title templates, the experience patterns, the section and job patterns of
  `utils.py`, and the JSON parse-and-validate step are irregular or foreign.
  The model takes what they capture as input. Every other pattern is written out.
- Letters, case mapping and the regex classes `\d` and `\w` are ASCII.
  Whitespace is the full set that `str.isspace()` accepts.
- Python chooses the order in which a `set` is iterated. That order is a ghost
  out-parameter of the methods (`Enumerates(order, s)`), and contracts hold for
  every order.
- Percentages are exact reals.
- A date is a day number, and "today" is a parameter.
- The YAML rules, the salary table and the application list are parameters.
- A missing optional string argument is written `""`, since the source only tests
  its truth value.

Where the code departs from the design it documents, the model follows the code:

- The ATS checks always deduct the class constant `SCORING_WEIGHTS`. The rules' `scoring`
  block has no effect (`AtsCompatibility.ScoringBlockIgnored`).
- `calculate_total_score` resets the score but not the `issues` list. A second
  call therefore reports every issue twice (`AtsCompatibility.ATSCompatibilityChecker.CalculateTotalScore`).
- Header and footer deductions are charged per section, not once per document.
- The font-size issue is LOW severity.
- `match_job_title` compares the first run's `.pt` with `Pt(12)`, which is a
  length in EMU. In effect only a bold first run qualifies.
- The keyword matcher's suggestion priority is always MEDIUM, because the
  analysis it reads never has a `required_keywords` key.
- Checklist completion is not capped, so it can exceed 100.

## Model

| member | source | states |
|---|---|---|
| Checklists.ChecklistSizes | src/ui/checklists.py:10-57 | the pre-application checklist holds 18 items over its categories and the final-submission checklist 15 |
| Checklists.MarkedComplete | src/ui/checklists.py:84-95 | marking creates the checklist type when absent, records the id as done, keeps the other ids of that type and leaves every other type unchanged |
| Checklists.MarkedIncomplete | src/ui/checklists.py:97-106 | unmarking removes exactly that id from a present type, changes no other type, and is a no-op when the type or id is not recorded |
| Checklists.Cleared | src/ui/checklists.py:140-148 | a reset empties a type only when it is present and never adds or removes a type |
| Checklists.CompletionPercentage | src/ui/checklists.py:108-126 | completed ids over 18 or 15 items times 100 for the two known types, 0 for any other type, never negative |
| Checklists.MarkCompleteIdempotent | src/ui/checklists.py:84-95 | marking the same item twice gives the same progress as marking it once |
| Checklists.MarkUnmarkRoundTrip | src/ui/checklists.py:84-106 | unmarking a freshly marked new item restores the progress, except that a type created by the mark stays as an empty entry |
| Checklists.MarkCompleteCounts | src/ui/checklists.py:84-126 | marking a new id raises the completed count by one and marking a recorded id leaves it unchanged |
| Checklists.CompletionNotCapped | src/ui/checklists.py:119-126 | more recorded ids than items (ids are not checked against the list) give a percentage above 100 |
| Checklists.ResetClearsCompletion | src/ui/checklists.py:118-148 | after resetting a present type its completed count and percentage are 0 |
| Checklists.ChecklistSystem.constructor | src/ui/checklists.py:59-64 | both checklist types start with no recorded ids |
| Checklists.ChecklistSystem.GetPreApplicationChecklist | src/ui/checklists.py:66-73 | returns the fixed pre-application checklist of 18 items |
| Checklists.ChecklistSystem.GetFinalSubmissionChecklist | src/ui/checklists.py:75-82 | returns the fixed final-submission checklist of 15 items |
| Checklists.ChecklistSystem.MarkComplete | src/ui/checklists.py:84-95 | the new progress is the marked progress of the old one |
| Checklists.ChecklistSystem.MarkIncomplete | src/ui/checklists.py:97-106 | the new progress is the unmarked progress of the old one |
| Checklists.ChecklistSystem.GetCompletionPercentage | src/ui/checklists.py:108-126 | returns the completion percentage of the current progress |
| Checklists.ChecklistSystem.GetAllCompletionStatus | src/ui/checklists.py:128-138 | returns both types' completion percentages |
| Checklists.ChecklistSystem.ResetChecklist | src/ui/checklists.py:140-148 | the new progress is the old one with that type cleared |
| Analytics.CalculateResponseRate | src/trackers/analytics.py:21-47 | counts the applications dated on or after `today - days`, the responded ones among them, and their percentage (0 with no recent applications, between 0 and 100) |
| Analytics.ResponseRateCountsRecent | src/trackers/analytics.py:34-38 | the recent applications are exactly those dated from the cutoff, the responses exactly those among them whose status is not 'Applied', and responses plus non-responses make the total |
| Analytics.CalculateInterviewRate | src/trackers/analytics.py:49-68 | counts all applications and those with status Interview or Offer, with their percentage (0 when there are none, between 0 and 100) |
| Analytics.InterviewsAreInterviewStatuses | src/trackers/analytics.py:59-60 | the counted interviews are exactly the applications whose status is Interview or Offer, and with the rest they make the total |
| Analytics.WeekOf | src/trackers/analytics.py:94-107 | week `i` back spans `[today - 7(i+1), today - 7i)`, is labelled "Week i+1", counts the applications dated in it, and counts no more interviews than applications |
| Analytics.WeeklyTrends | src/trackers/analytics.py:80-109 | one entry per requested week (none for a non-positive count) |
| Analytics.WeeklyTrendsEntries | src/trackers/analytics.py:93-109 | after the reversal, entry `j` is the week `count - 1 - j` back, so the list runs oldest first |
| Analytics.GetWeeklyTrends | src/trackers/analytics.py:80-109 | the loop over the weeks followed by the reversal gives exactly the weekly trends |
| Analytics.WeeksAreConsecutive | src/trackers/analytics.py:93-109 | each week lasts seven days, each ends where the next begins, the newest ends today and the oldest starts `7 * count` days back |
| Analytics.WeeksAreDisjoint | src/trackers/analytics.py:97-98 | no date falls in two different weeks |
| Analytics.WindowSplit | src/trackers/analytics.py:97-98 | counting over `[lo, hi)` is counting over `[lo, mid)` plus `[mid, hi)` |
| Analytics.WeeklyTotal | src/trackers/analytics.py:93-109 | the weekly application counts add up to the number of applications dated in the last `7 * weeks` days |
| StarGenerator.StarKeywords | src/assistants/star_generator.py:39-42 | without a parser no keywords; with one, a prefix of at most two of its technical skills, exactly two when it found two or more |
| StarGenerator.GenerateStarAnswer | src/assistants/star_generator.py:20-55 | the answer is the Situation, Task, Action (with the keyword clause and a full stop) and Result sections joined by blank lines |
| StarGenerator.StarSectionsInOrder | src/assistants/star_generator.py:45-53 | the answer starts with the situation, and its Task, Action and Result sections follow at increasing positions, each after a blank line, with nothing after the result |
| StarGenerator.StarAnswerNamesKeywords | src/assistants/star_generator.py:48-51 | with parser skills, the answer contains "This involved using" with the first skill, followed by " and " with the second when there are two |
| StarGenerator.TemplateFor | src/assistants/star_generator.py:69-90 | a known experience type selects its template; any other type selects the project template; the result is always one of the three |
| StarGenerator.GenerateFromTemplate | src/assistants/star_generator.py:57-98 | the template's four phrases fill the four sections unchanged |
| StarGenerator.UnknownTypeIsProject | src/assistants/star_generator.py:90 | an unknown experience type gives the same answer as 'project' |
| Salary.Get | src/assistants/salary_calculator.py:51-68 | a lookup finds a value exactly when some entry has the key, and the value found is that of an entry under the key |
| Salary.GetDistinct | src/assistants/salary_calculator.py:51-61 | in a table with distinct keys, as a dict has, a lookup finds the value stored under the key |
| Salary.GetSalaryRange | src/assistants/salary_calculator.py:25-69 | the country error when the country key is missing, the role-level error when the level is missing, a range otherwise; the range is the location's entry, else London for the UK, else major cities for the US, else the first entry, else "Not available"; years of experience from the table or "N/A" |
| Salary.RangeComesFromTable | src/assistants/salary_calculator.py:50-61 | a found range is the value of some entry of the role's table, or "Not available" when the table is empty |
| Salary.SpanNumber | src/assistants/salary_calculator.py:92 | the leading run of digits and commas is maximal |
| Salary.NumberRuns | src/assistants/salary_calculator.py:92 | every run found is non-empty and made of digits and commas only |
| Salary.NumberRunsOccur | src/assistants/salary_calculator.py:92 | every run found occurs in the range text |
| Salary.NumberRunsEmptyIff | src/assistants/salary_calculator.py:92 | no run is found exactly when the text has no digit and no comma |
| Salary.SuggestSalaryExpectation | src/assistants/salary_calculator.py:71-100 | the fixed text on a lookup error or a range without numbers; otherwise the country's currency sign before the second number when there are two or more, the first when there is one |
| Salary.SuggestionQuotesRange | src/assistants/salary_calculator.py:84-100 | the suggestion is the fixed text exactly when the lookup fails or the range has no digit or comma; otherwise it is a currency sign followed by a run of digits and commas that occurs in the range |
| ApplicationForm.MentionedKeywords | src/assistants/application_form.py:49-59 | without a parser none; with one, the first two of its technical skills (the first three are taken, two are named) |
| ApplicationForm.GenerateStarAnswer | src/assistants/application_form.py:32-63 | the four sections, each ending in a full stop, joined by blank lines, with each missing experience part replaced by its default phrase and the "utilizing" clause naming the mentioned keywords |
| ApplicationForm.StarAnswerDefaults | src/assistants/application_form.py:43-46 | with an empty experience every section carries its default phrase |
| ApplicationForm.StarAnswerWithoutKeywords | src/assistants/application_form.py:58-60 | without a parser or without skills the action section has no "utilizing" clause |
| ApplicationForm.CalculateSalaryRange | src/assistants/application_form.py:65-103 | "Salary data not found" and "Role level not found" for a missing country or level; a range exactly when the table has the location, London or major cities; the location's entry when present, else the table's first entry; "Location not found" otherwise |
| ApplicationForm.FormDiffersFromCalculator | src/assistants/application_form.py:78-103 | the form and the salary calculator fail on the same country and role lookups and agree on an exact location; where the form reports "Location not found" the calculator quotes the table's first entry |
| ApplicationForm.HiringDraft | src/assistants/application_form.py:119-135 | the draft opens with the interest sentence and contains the skills clause (at most three skills), the detail clause and the availability sentence |
| ApplicationForm.GenerateHiringMessage | src/assistants/application_form.py:105-145 | a draft of more than 300 words is cut to its first 300 words plus "..."; one of fewer than 200 words gets the expansion sentence once; otherwise it is unchanged |
| ApplicationForm.CutKeepsWordCount | src/assistants/application_form.py:138-140 | joining the first `n` words with single spaces and appending "..." gives exactly `n` words |
| ApplicationForm.LongMessageCutTo300Words | src/assistants/application_form.py:139-140 | a message that was cut has exactly 300 words |
| ApplicationForm.ShortMessageStaysShort | src/assistants/application_form.py:141-143 | the expansion is added once, so a draft under 272 characters still ends with fewer than 200 words, below the 200-300 word target |
| ResumeParser.PersonalInfoEntries | utils.py:62-104 | one entry per captured name, email and phone, holding the stripped capture, and no other key; the single `name: N/A` entry exactly when nothing was captured |
| ResumeParser.CollectDetails | utils.py:62-72 | the three conditional updates build exactly the captured details |
| ResumeParser.BulletLines | utils.py:90 | the kept lines are no more than the lines and each starts with `-`, `•` or `*` |
| ResumeParser.StripIdempotent | utils.py:89-90 | stripping twice is stripping once, so a fallback bullet is already stripped |
| ResumeParser.BulletLineKept | utils.py:90 | every line whose stripped form starts with a bullet glyph is kept, stripped |
| ResumeParser.BulletLineSource | utils.py:90 | every kept bullet is the stripped form of some line of the block |
| ResumeParser.BulletLinesMembers | utils.py:90 | a text is a kept bullet exactly when it starts with a bullet glyph and is the stripped form of a line |
| ResumeParser.BulletLinesEmptyIff | utils.py:90-91 | no bullet is kept exactly when no stripped line starts with a bullet glyph |
| ResumeParser.JobBullets | utils.py:89-92 | a job always has bullets: either all bullet lines, or the whole stripped block as the single bullet |
| ResumeParser.BlockFallback | utils.py:89-92 | the stripped block is the single bullet when no line is a bullet line; otherwise the bullets are exactly the stripped bullet lines |
| ResumeParser.NextSeparator | utils.py:100 | the next separator among `,`, `;`, `•`, `-` and newline at or after a position, or the end |
| ResumeParser.SplitSkills | utils.py:100 | splitting gives at least one piece and no piece contains a separator |
| ResumeParser.SplitSkillsCount | utils.py:100 | the split gives one more piece than the text has separators |
| ResumeParser.StrippedNonEmpty | utils.py:100 | the kept pieces are no more than the pieces and none is empty |
| ResumeParser.StrippedPiecesHaveNoSeparator | utils.py:100 | stripping pieces that hold no separator keeps them free of separators |
| ResumeParser.StrippedPieceSource | utils.py:100 | every kept skill is the stripped form of some piece |
| ResumeParser.StrippedPieceKept | utils.py:100 | every piece that is not blank is kept, stripped |
| ResumeParser.StrippedNonEmptyMembers | utils.py:100 | a text is kept exactly when it is non-empty and the stripped form of a piece, and every kept text is stripped |
| ResumeParser.JobsOf | utils.py:86-93 | one job per match, in order, each built from its match |
| ResumeParser.JobsOfStep | utils.py:86-93 | the jobs of one more match are the earlier jobs followed by the new match's job |
| ResumeParser.CollectJobs | utils.py:79-93 | the loop over the job matches collects exactly the jobs of the matches |
| ResumeParser.WorkExperience | utils.py:79-106 | never empty and every job has a bullet; the `N/A` job with "No experience listed" when no job matched, the matched jobs otherwise |
| ResumeParser.Skills | utils.py:96-108 | never empty and no skill is empty; "No skills listed" when no piece survives, the pieces otherwise |
| ResumeParser.Summary | utils.py:75-76 | the stripped capture, or "Professional summary" when there is none |
| ResumeParser.SkillsFromSection | utils.py:96-100 | with a skills section, the skills are exactly the non-blank stripped pieces between separators, each is stripped and none contains a separator |
| ResumeParser.ParsedResumeComplete | utils.py:48-115 | a valid JSON record is returned as is; otherwise the record always has a job, every job a bullet, at least one skill and no empty skill |
| ResumeParser.ParseResumeToSchema | utils.py:32-115 | the parse gives the JSON record when there is one and the text parse otherwise |
| StructureAnalyzer.Hits | src/parsers/structure_analyzer.py:37-53 | the hits among the first `n` lines number at most `n` and each names a line before `n` |
| StructureAnalyzer.HitsSpec | src/parsers/structure_analyzer.py:37-53 | the hits are exactly the lines where the test finds something, each recorded once with its value, in strictly increasing line order |
| StructureAnalyzer.HeadersSpec | src/parsers/structure_analyzer.py:31-53 | the header lines are exactly the lines whose stripped text matches one of the three header shapes, each once, in line order, named by the first shape that matches |
| StructureAnalyzer.Sectioned | src/parsers/structure_analyzer.py:43-52 | one section per header, section `k` built from header `k` |
| StructureAnalyzer.SectionedSpec | src/parsers/structure_analyzer.py:43-56 | for increasing headers, each section ends on the line before the next one starts, the last ends on the last line, and every section covers at least its own header line |
| StructureAnalyzer.SectionsWithSpec | src/parsers/structure_analyzer.py:37-58 | one section per header line, named after it and starting on it; consecutive sections meet; the last runs to the last line |
| StructureAnalyzer.SectionsSpec | src/parsers/structure_analyzer.py:21-58 | the same facts for the three header shapes of `identify_sections` |
| StructureAnalyzer.Names | src/parsers/structure_analyzer.py:146 | the section names, one per section, in order |
| StructureAnalyzer.CloseSection | src/parsers/structure_analyzer.py:43-52 | a header on line `i` closes the open section on line `i - 1` and keeps every earlier section as specified |
| StructureAnalyzer.SectionsFound | src/parsers/structure_analyzer.py:28-58 | the loop, closing the open section at each header and appending the last one at the end, gives exactly the specified sections |
| StructureAnalyzer.ScanLine | src/parsers/structure_analyzer.py:75-132 | a marker line switches the scan on and adds nothing; outside the section nothing changes; the scan only leaves on an ALL-CAPS `X:` header without a keep word; an item is added only from a bullet line, as its text |
| StructureAnalyzer.ScanItemsFromBullets | src/parsers/structure_analyzer.py:75-132 | at most one item per line, and every item is the bullet text of a line scanned inside the section that holds no marker |
| StructureAnalyzer.ScanItemsCount | src/parsers/structure_analyzer.py:92-94 | each line adds at most one item |
| StructureAnalyzer.ScanItemSource | src/parsers/structure_analyzer.py:92-132 | each item has a source line scanned inside the section whose stripped bullet text it is |
| StructureAnalyzer.ProseKeepsSection | src/parsers/structure_analyzer.py:84-89 | inside the section, a line that is not an ALL-CAPS `X:` header never ends it |
| StructureAnalyzer.BulletCollected | src/parsers/structure_analyzer.py:91-94 | inside the section every bullet line without a marker is collected, in order |
| StructureAnalyzer.MatchBulletNotHeader | src/parsers/structure_analyzer.py:85-92 | a bullet line never looks like an ALL-CAPS header |
| StructureAnalyzer.RequirementHeaderAlwaysLeaves | src/parsers/structure_analyzer.py:117-127 | inside the requirements section an ALL-CAPS header keeps the scan on exactly when it is a marker line, so the inner keep test never decides anything |
| StructureAnalyzer.MarkerBulletSkipped | src/parsers/structure_analyzer.py:79-81 | a bullet that holds a marker word ("- Duties: code") is skipped, not collected |
| StructureAnalyzer.StructureAnalyzer.constructor | src/parsers/structure_analyzer.py:11-19 | keeps the text and its lines split on newlines |
| StructureAnalyzer.StructureAnalyzer.IdentifySections | src/parsers/structure_analyzer.py:21-58 | returns the sections of the lines |
| StructureAnalyzer.StructureAnalyzer.ScanLines | src/parsers/structure_analyzer.py:75-96 | the scan loop over all lines collects exactly the scan's items |
| StructureAnalyzer.StructureAnalyzer.ExtractResponsibilities | src/parsers/structure_analyzer.py:60-96 | returns the responsibility bullets of the scan with the responsibility markers |
| StructureAnalyzer.StructureAnalyzer.ExtractRequirements | src/parsers/structure_analyzer.py:98-134 | returns the requirement bullets of the scan with the requirement markers |
| StructureAnalyzer.StructureAnalyzer.GetStructureForMirroring | src/parsers/structure_analyzer.py:136-151 | the section names are the header names in line order, with both bullet lists |
| Docx.RunsTextAppend | src/utils/docx_handler.py:49-50 | the text of two run lists put together is the two texts put together |
| Docx.ParagraphTexts | src/utils/docx_handler.py:54-64 | one text per paragraph, in document order, each the concatenation of its runs |
| Docx.SectionIndexFrom | src/utils/docx_handler.py:154-158 | the least index from `from` on whose upper-cased text contains the upper-cased name, or none when no later paragraph does |
| Docx.SectionIndex | src/utils/docx_handler.py:143-158 | the first paragraph naming the section, case-insensitively; none exactly when no paragraph names it |
| Docx.FindSectionInDocx | src/utils/docx_handler.py:143-158 | the loop returns exactly the first paragraph naming the section |
| Docx.ExtractDocxText | src/utils/docx_handler.py:38-51 | the paragraph texts joined by newlines, in document order |
| Docx.FontsOfRuns | src/utils/docx_handler.py:173-175 | the fonts of a run list are exactly the non-empty font names set on its runs |
| Docx.GetFontsUsed | src/utils/docx_handler.py:161-176 | a font is reported exactly when some run of some paragraph sets it |
| Docx.FontUsedInExtend | src/utils/docx_handler.py:172-175 | scanning one more paragraph adds exactly that paragraph's run fonts |
| Docx.HasTables | src/utils/docx_handler.py:198-208 | true exactly when the document has a table |
| Docx.HasHeadersFooters | src/utils/docx_handler.py:211-232 | true exactly when some section has a header or footer paragraph with non-whitespace text |
| Docx.HasGraphics | src/utils/docx_handler.py:179-195 | true exactly when some relationship target contains "image", compared case-sensitively |
| QualityValidation.Advice | src/checkers/quality_validator.py:56 | the warning is the advice text, then the first 50 characters of the bullet (all of a shorter one), then "..." |
| QualityValidation.Warned | src/checkers/quality_validator.py:50-56 | no more warnings than bullets |
| QualityValidation.WarnedSpec | src/checkers/quality_validator.py:50-56 | every warning is the advice for a bullet that starts with an action verb and has no metric, and every such bullet gets its warning |
| QualityValidation.QuantifiableWarningsSpec | src/checkers/quality_validator.py:35-58 | at most five warnings, each for a flagged bullet of the text; when fewer than five are returned, every flagged bullet has its warning |
| QualityValidation.DigitThenKWordIsMetric | src/checkers/quality_validator.py:48-51 | a digit, a space and a word starting with k or m always count as a metric ("3 key" reads as "3 k") |
| QualityValidation.TitleMatches | src/checkers/quality_validator.py:74-81 | a match needs a non-empty target sharing a word with the CV title, and a target whose words all appear in the title always matches |
| QualityValidation.LowerTwice | src/checkers/quality_validator.py:74-75 | lower-casing twice is lower-casing once |
| QualityValidation.TitleMatchIgnoresCase | src/checkers/quality_validator.py:74-75 | the match gives the same answer for lower-cased target and title |
| QualityValidation.CvTitle | src/checkers/quality_validator.py:83-94 | the stripped text of the first of the first five paragraphs whose first run is bold or larger than 12 pt; without a document or such a paragraph, the stripped first line of the text |
| QualityValidation.KeywordReportMembers | src/checkers/quality_validator.py:109-114 | a keyword is listed present exactly when it is found as a whole word in the lower-cased CV, missing exactly when it is not |
| QualityValidation.KeywordReportSplit | src/checkers/quality_validator.py:106-114 | the present and missing lists together are the keywords, duplicates kept, each list in input order |
| QualityValidation.KeywordCoverage | src/checkers/quality_validator.py:119 | the coverage is the present share in percent (between 0 and 100), 0 for no keywords |
| QualityValidation.QualityValidator.constructor | src/checkers/quality_validator.py:13-33 | the text is the joined paragraph texts of a `.docx` and the file text otherwise; the lower-cased copy is its lower case; no warnings yet |
| QualityValidation.QualityValidator.CheckQuantifiableAchievements | src/checkers/quality_validator.py:35-58 | returns the first five warnings for the CV's bullets |
| QualityValidation.QualityValidator.ExtractCvTitle | src/checkers/quality_validator.py:83-94 | returns the CV title as specified |
| QualityValidation.QualityValidator.CheckJobTitleMatch | src/checkers/quality_validator.py:60-81 | whether the target matches the CV title |
| QualityValidation.QualityValidator.CheckKeywordDensity | src/checkers/quality_validator.py:96-120 | returns the keyword report of the lower-cased CV |
| QualityValidation.QualityValidator.ValidateAll | src/checkers/quality_validator.py:122-145 | always the warnings; the title match exactly when a non-empty title is given; the keyword report exactly when a non-empty keyword list is given |
| KeywordMatching.MapNonEmpty | src/checkers/keyword_matcher.py:52 | no more results than entries |
| KeywordMatching.MapNonEmptySpec | src/checkers/keyword_matcher.py:34-52 | a value is produced exactly when some non-empty entry maps to it; empty entries are skipped before mapping |
| KeywordMatching.CategoryKeywords | src/checkers/keyword_matcher.py:52 | no more normalised keywords than entries |
| KeywordMatching.CategoryKeywordsSpec | src/checkers/keyword_matcher.py:52 | a category lists exactly the lower-cased, stripped forms of its non-empty entries |
| KeywordMatching.CategoryKeywordsSnoc | src/checkers/keyword_matcher.py:35-38 | one more entry adds its normalised form when it is non-empty and nothing otherwise |
| KeywordMatching.UnionOverSpec | src/checkers/keyword_matcher.py:34-38 | a keyword is in the union exactly when some category contributes it |
| KeywordMatching.AllKeywordsIsUnion | src/checkers/keyword_matcher.py:34-38 | the collected set is the union of the categories' normalised lists |
| KeywordMatching.AllKeywordsSpec | src/checkers/keyword_matcher.py:29-38 | a keyword is collected exactly when some category lists a non-empty entry normalising to it |
| KeywordMatching.DuplicatesAcrossCategoriesCountOnce | src/checkers/keyword_matcher.py:34-38 | "SQL", " sql " and "Sql" in two categories, with an empty entry, give the single keyword "sql" |
| KeywordMatching.KeywordInsideWordNotFound | src/checkers/keyword_matcher.py:43-44 | the whole-word search does not find "java" inside "javascript" but finds it in "java, sql" |
| KeywordMatching.Matched | src/checkers/keyword_matcher.py:41-45 | the matched keywords are among the collected ones |
| KeywordMatching.MissingIn | src/checkers/keyword_matcher.py:41-47 | no more missing keywords than keywords scanned |
| KeywordMatching.MissingInSpec | src/checkers/keyword_matcher.py:41-47 | a keyword is missing exactly when it was scanned and the CV does not mention it as a whole word |
| KeywordMatching.MissingInDistinct | src/checkers/keyword_matcher.py:41-47 | the missing list has no duplicates, as the scanned set has none |
| KeywordMatching.MatchedMissingPartition | src/checkers/keyword_matcher.py:40-70 | every collected keyword is matched or missing and not both, and the two counts add up to the number of keywords |
| KeywordMatching.CountFound | src/checkers/keyword_matcher.py:53-55 | counts at most the entries, and 0 exactly when the CV mentions none of them |
| KeywordMatching.CategoryStats | src/checkers/keyword_matcher.py:51-61 | matched is at most total, total at most the entries, the percentage between 0 and 100 and 0 for an empty category |
| KeywordMatching.Breakdown | src/checkers/keyword_matcher.py:50-61 | one entry per category, in dict order, each the category's name with its statistics |
| KeywordMatching.MatchCountsSpec | src/checkers/keyword_matcher.py:63-70 | for any iteration order, matched plus missing is the total, and the percentage is between 0 and 100 and 0 without keywords |
| KeywordMatching.MissingListSpec | src/checkers/keyword_matcher.py:63-72 | the reported list has at most 20 keywords, each collected and not mentioned, and all missing ones when there are at most 20 |
| KeywordMatching.BestSection | src/checkers/keyword_matcher.py:117-130 | only "skills" or "experience"; "experience" exactly when the lower-cased keyword contains an action indicator and no technical one |
| KeywordMatching.TechnicalIndicatorWins | src/checkers/keyword_matcher.py:120-122 | a keyword with both kinds of indicator ("developed python") goes to skills |
| KeywordMatching.IndicatorInsideWord | src/checkers/keyword_matcher.py:125-127 | the indicator test is a substring test: "skilled" goes to experience as it contains "led" |
| KeywordMatching.NoIndicatorMeansSkills | src/checkers/keyword_matcher.py:129-130 | a keyword without indicators goes to skills |
| KeywordMatching.SuggestionsFor | src/checkers/keyword_matcher.py:94-101 | one suggestion per keyword, in order |
| KeywordMatching.SuggestionsSnoc | src/checkers/keyword_matcher.py:94-101 | one more keyword appends its suggestion |
| KeywordMatching.SuggestionsSpec | src/checkers/keyword_matcher.py:94-103 | one suggestion for each of the first ten missing keywords, in order, each with priority "MEDIUM" and placed in skills or experience |
| KeywordMatching.SuggestedKeywordsAreMissing | src/checkers/keyword_matcher.py:84-94 | every suggested keyword is a collected keyword the CV does not mention |
| KeywordMatching.MatchGrade | src/checkers/keyword_matcher.py:148-159 | Excellent from 90, Good from 80, Acceptable from 70, Needs Improvement from 60, Poor below 60 |
| KeywordMatching.MatchGradeMonotone | src/checkers/keyword_matcher.py:148-159 | a higher percentage never gets a worse grade |
| KeywordMatching.CollectKeywords | src/checkers/keyword_matcher.py:29-38 | the nested collection loop gives exactly the collected keyword set |
| KeywordMatching.CollectStep | src/checkers/keyword_matcher.py:35-38 | one more entry of a category adds its normalised form to the set |
| KeywordMatching.AllKeywordsSnoc | src/checkers/keyword_matcher.py:34-38 | one more category adds its normalised keywords to the set |
| KeywordMatching.SplitMatched | src/checkers/keyword_matcher.py:41-47 | the loop over the set, in its iteration order, gives the matched set and the missing list in that order |
| KeywordMatching.CategoryBreakdown | src/checkers/keyword_matcher.py:50-61 | the per-category loop gives exactly the breakdown |
| KeywordMatching.BreakdownSnoc | src/checkers/keyword_matcher.py:51-61 | one more category appends its entry |
| KeywordMatching.KeywordMatcher.constructor | src/checkers/keyword_matcher.py:11-20 | keeps the lower-cased CV text and the keyword dict |
| KeywordMatching.KeywordMatcher.CalculateMatchPercentage | src/checkers/keyword_matcher.py:22-74 | returns the statistics for some iteration order of the collected keyword set |
| KeywordMatching.KeywordMatcher.SuggestKeywordPlacements | src/checkers/keyword_matcher.py:76-103 | returns the suggestions for the missing list of some iteration order of the keyword set |
| KeywordMatching.KeywordMatcher.GetMatchReport | src/checkers/keyword_matcher.py:132-146 | reports the match statistics, the placement suggestions for the missing keywords and the grade of the match percentage |
| AtsDetector.Names | src/checkers/ats_detector.py:153-160 | the system names of the table, one per entry, in table order |
| AtsDetector.DefaultSystems | src/checkers/ats_detector.py:13-73 | the built-in table lists greenhouse, workable, lever, ashby, taleo and workday, in that order and without repeats |
| AtsDetector.UpdateConfigSpec | src/checkers/ats_detector.py:92 | updating twice with the same keys is updating once, an update without keys changes nothing, and an update with every key replaces the configuration |
| AtsDetector.MergeSystem | src/checkers/ats_detector.py:90-92 | the entry of the named system is updated in place and every other entry is unchanged; an unknown name changes nothing |
| AtsDetector.MergeAllKeepsNames | src/checkers/ats_detector.py:88-92 | merging never adds, removes or reorders systems: systems the table does not have are ignored |
| AtsDetector.MergeAllKeepsUnmentioned | src/checkers/ats_detector.py:90-92 | a system the rules file does not mention keeps its configuration |
| AtsDetector.Lookup | src/checkers/ats_detector.py:136-151 | a name is found exactly when it is in the table, with a configuration stored under it |
| AtsDetector.FirstMatchFrom | src/checkers/ats_detector.py:109-122 | the first entry from a position on with a pattern occurring in the lower-cased text, and none exactly when no later entry has one |
| AtsDetector.DetectSpec | src/checkers/ats_detector.py:96-124 | a URL match decides the result whatever the HTML; with neither input the result is none; any result is a system of the table |
| AtsDetector.GreenhouseUrlFirst | src/checkers/ats_detector.py:109-114 | a URL containing "greenhouse.io" is Greenhouse's, whatever else it holds, as the first entry wins |
| AtsDetector.LeverageReadsAsLever | src/checkers/ats_detector.py:117-122 | signatures are plain substrings: a page saying "Leverage" is taken for Lever |
| AtsDetector.OptimizationTips | src/checkers/ats_detector.py:126-151 | an unknown system gets the generic focus and exactly its four generic tips; a known one its stored focus and tips, defaulting to "General optimization" and no tips |
| AtsDetector.SignatureTable.constructor | src/checkers/ats_detector.py:13-73 | the table starts as the built-in signatures |
| AtsDetector.SignatureTable.Update | src/checkers/ats_detector.py:92 | the shared table becomes the merge of the named system's update |
| AtsDetector.ATSSystemDetector.constructor | src/checkers/ats_detector.py:75-94 | the shared table becomes the merge of every rules entry, in order |
| AtsDetector.ATSSystemDetector.DetectAts | src/checkers/ats_detector.py:96-124 | returns the first system in table order with a matching URL pattern, else with a matching HTML signature, else none |
| AtsDetector.FirstSystemIn | src/checkers/ats_detector.py:109-122 | the nested loop returning at the first hit gives the first matching system |
| CoverLetter.Hook | src/engines/cover_letter_gen.py:45-48 | the opening sentence naming the job title and the company, followed by the company detail when given and by the mission sentence otherwise |
| CoverLetter.HookNamesRoleAndCompany | src/engines/cover_letter_gen.py:46-48 | the hook contains the job title and the company name |
| CoverLetter.SkillsToMentionSize | src/engines/cover_letter_gen.py:60-64 | the candidates are at most 5 technical plus 3 required skills, so at most 8, and the named ones are at most 4 distinct skills |
| CoverLetter.TechnicalMatch | src/engines/cover_letter_gen.py:66-76 | the generic sentence without skills; otherwise the paragraph starts "I'm proficient in" with the first skill; it always ends with a full stop |
| CoverLetter.TechnicalMatchNamesSkills | src/engines/cover_letter_gen.py:66-74 | each of the first four candidate skills is named in paragraph 2 |
| CoverLetter.LongTechnicalMatch | src/engines/cover_letter_gen.py:66-70 | with three or four skills, each is named |
| CoverLetter.TwoSkillTechnicalMatch | src/engines/cover_letter_gen.py:71-72 | with two skills, both are named |
| CoverLetter.OneSkillTechnicalMatch | src/engines/cover_letter_gen.py:73-74 | with one skill, it is named |
| CoverLetter.LongSkillsSentenceNames | src/engines/cover_letter_gen.py:67-70 | the three-or-four-skill sentence contains each of its skills |
| CoverLetter.ExperienceStory | src/engines/cover_letter_gen.py:91-96 | the given achievement after "In my previous role, " with a full stop, the generic story otherwise |
| CoverLetter.Aspect | src/engines/cover_letter_gen.py:117 | a responsibility of at most 100 characters unchanged, a longer one cut to its first 100 characters plus "..." (103 in all) |
| CoverLetter.WhyThisRole | src/engines/cover_letter_gen.py:111-120 | the given aspect after "because"; otherwise the lower-cased, cut first responsibility; otherwise the generic sentence |
| CoverLetter.CloseParts | src/engines/cover_letter_gen.py:137-143 | one part for each of location and availability that is given |
| CoverLetter.Close | src/engines/cover_letter_gen.py:145-148 | the given parts joined by ", " before the closing clause, or the fixed sentence when neither is given |
| CoverLetter.CloseWithBoth | src/engines/cover_letter_gen.py:139-146 | with both given, the location part comes first, then the availability part |
| CoverLetter.ToneKeepsPlainText | src/engines/cover_letter_gen.py:164-174 | a text holding none of the formal phrases comes out of the tone rules unchanged |
| CoverLetter.JoinFive | src/engines/cover_letter_gen.py:205 | joining five paragraphs is writing them with the separator between each pair |
| CoverLetter.LengthOf | src/engines/cover_letter_gen.py:264-269 | the word count is the number of whitespace-separated words, at most half the length rounded up, and the letter is under 400 words exactly when the count is below 400 |
| CoverLetter.ShortLetterUnder400 | src/engines/cover_letter_gen.py:264-269 | a letter of fewer than 799 characters is always under 400 words |
| CoverLetter.CoverLetterGenerator.constructor | src/engines/cover_letter_gen.py:12-30 | all five paragraph slots start empty |
| CoverLetter.CoverLetterGenerator.GenerateParagraph1Hook | src/engines/cover_letter_gen.py:32-51 | returns the hook, stores it in slot 1 and leaves the other slots unchanged |
| CoverLetter.CoverLetterGenerator.GenerateParagraph2TechnicalMatch | src/engines/cover_letter_gen.py:53-79 | returns paragraph 2 for some iteration order of the candidate set, stores it in slot 2 and leaves the other slots unchanged |
| CoverLetter.CoverLetterGenerator.GenerateParagraph3ExperienceStory | src/engines/cover_letter_gen.py:81-99 | returns paragraph 3, stores it in slot 3 and leaves the other slots unchanged |
| CoverLetter.CoverLetterGenerator.GenerateParagraph4WhyThisRole | src/engines/cover_letter_gen.py:101-123 | returns paragraph 4 from the analysis's responsibilities, stores it in slot 4 and leaves the other slots unchanged |
| CoverLetter.CoverLetterGenerator.GenerateParagraph5Close | src/engines/cover_letter_gen.py:125-151 | returns paragraph 5, stores it in slot 5 and leaves the other slots unchanged |
| CoverLetter.CoverLetterGenerator.ApplyToneRules | src/engines/cover_letter_gen.py:153-174 | the loop replaces each formal phrase in dictionary order |
| CoverLetter.CoverLetterGenerator.GenerateCompleteLetter | src/engines/cover_letter_gen.py:176-210 | every slot holds its paragraph and the letter is the five joined by blank lines with the tone rules applied |
| CvTailor.Heading | src/engines/cv_tailor.py:135 | a heading paragraph added by `add_heading` reads exactly its text |
| CvTailor.BulletParagraph | src/engines/cv_tailor.py:173 | a bullet added with the `List Bullet` style reads exactly its text and carries that style |
| CvTailor.Rewritten | src/engines/cv_tailor.py:142-144 | a paragraph cleared and given one run reads exactly the new text and keeps its style |
| CvTailor.TitleIndex | src/engines/cv_tailor.py:44-55 | the first paragraph among the first ten whose first run is larger than the threshold or bold; none before it qualifies, and none at all when the result is absent |
| CvTailor.Retitled | src/engines/cv_tailor.py:39-65 | the title is matched exactly when the target is neither empty nor "Unknown Title" and either a title-like paragraph exists among the first ten or the first paragraph is blank; only that one paragraph changes and the paragraph count stays |
| CvTailor.RetitledText | src/engines/cv_tailor.py:49-63 | the edited paragraph keeps its style and reads the title followed by the rest of its runs, or, in the blank-first-paragraph fallback, its blank text followed by the title; it always contains the title |
| CvTailor.OnlyBoldQualifies | src/engines/cv_tailor.py:48 | because a font size in points is compared with 12 points counted in EMU, for any size Word allows only a bold first run makes a paragraph the title |
| CvTailor.TitleScanStopsAtTen | src/engines/cv_tailor.py:44 | paragraphs after the tenth change neither whether the title is matched nor which paragraph is edited |
| CvTailor.AlternativeIndexFrom | src/engines/cv_tailor.py:86-89 | the first alternative whose index is true in Python's sense (found and not 0), with none before it true; or, when none is, the last alternative's result |
| CvTailor.FindAlternative | src/engines/cv_tailor.py:128-131 | the loop over the alternative names leaves the index the alternatives function describes |
| CvTailor.PhraseBullets | src/engines/cv_tailor.py:103-105 | one `List Bullet` paragraph "• phrase" per phrase, in order |
| CvTailor.Reversed | src/engines/cv_tailor.py:98-105 | the same elements in the opposite order |
| CvTailor.InsertedEachReverses | src/engines/cv_tailor.py:98-105 | inserting each bullet in turn before the same paragraph leaves them in reverse order right after the header; when the header is the last paragraph nothing is inserted |
| CvTailor.VerbatimInjected | src/engines/cv_tailor.py:78-108 | injection happens exactly when there are phrases and a section is found; then at most three phrase bullets, reversed, follow the header and nothing else changes |
| CvTailor.ExperienceAtZeroSkipped | src/engines/cv_tailor.py:83-92 | an "EXPERIENCE" header at index 0 found as an alternative is passed over, so injection finds no section |
| CvTailor.WithSkills | src/engines/cv_tailor.py:127-147 | a "SKILLS" heading is appended when no skills header is found; the paragraph after the header then reads the skills text; at most two paragraphs are added and no other paragraph changes |
| CvTailor.SkillsTextSpec | src/engines/cv_tailor.py:122-139 | the skills written are distinct, at most 15, as many as the distinct skills up to 15, and each is a required, preferred or technical skill |
| CvTailor.ValueBullets | src/engines/cv_tailor.py:171-173 | one `List Bullet` paragraph per value, "• value: Demonstrated through ...", in order |
| CvTailor.ValuesAdded | src/engines/cv_tailor.py:159-176 | the section is added exactly when there are values and no paragraph names VALUES at a true index; the old paragraphs stay as a prefix, followed by the heading and one bullet for each of the first five values |
| CvTailor.ValuesHeaderFirstNotSeen | src/engines/cv_tailor.py:164 | a VALUES header as the very first paragraph does not stop a second values section being added |
| CvTailor.LogisticsAdded | src/engines/cv_tailor.py:219-237 | the section is added exactly when a location or a right-to-work text is given and no paragraph names ADDITIONAL at a true index; the heading comes first, then "• Available for location" and "• right to work" for those given |
| CvTailor.DensityCounts | src/engines/cv_tailor.py:186-196 | the total is the number of distinct keywords, the matched count is the number contained in the lower-cased CV text, and the percentage is matched over total |
| CvTailor.DensityMissing | src/engines/cv_tailor.py:198-204 | at most ten missing keywords are reported, all of them keywords absent from the CV text, and every absent one when fewer than ten are absent |
| CvTailor.TailoringOperationsAreFlags | src/engines/cv_tailor.py:276-287 | the record holds the keyword report under "keyword_match" and every other entry is a flag, so the counts the operations recorded on the way do not survive |
| CvTailor.CvTailoringEngine.constructor | src/engines/cv_tailor.py:17-29 | the engine starts with the tailored copy equal to the base CV and no operations recorded |
| CvTailor.CvTailoringEngine.MatchJobTitle | src/engines/cv_tailor.py:31-65 | returns whether the title was matched, replaces the paragraphs by the retitled ones exactly then, and records `title_matched` |
| CvTailor.CvTailoringEngine.InjectVerbatimKeywords | src/engines/cv_tailor.py:67-108 | returns whether phrases were injected, sets the paragraphs to the injected ones exactly then, and records the number of phrases used |
| CvTailor.CvTailoringEngine.InsertBullets | src/engines/cv_tailor.py:98-105 | the insertion loop inserts each phrase bullet in turn before the same index and records nothing |
| CvTailor.CvTailoringEngine.AppendValueBullets | src/engines/cv_tailor.py:171-173 | the bullet loop appends one value bullet per value and records nothing |
| CvTailor.CvTailoringEngine.AddSkillsSectionWithKeywords | src/engines/cv_tailor.py:110-150 | updates the skills section exactly when the job description lists a skill, writes the skills in the set's iteration order, and records the number of distinct skills |
| CvTailor.CvTailoringEngine.AddValuesAlignmentSection | src/engines/cv_tailor.py:152-176 | adds the values section exactly when the values function does and records the number of values |
| CvTailor.CvTailoringEngine.AddLocationLogistics | src/engines/cv_tailor.py:207-237 | adds the logistics section exactly when the logistics function does and records `logistics_added` |
| CvTailor.CvTailoringEngine.OptimizeKeywordDensity | src/engines/cv_tailor.py:178-205 | reports the density of the lower-cased required skills, technical skills and phrases, in the set's iteration order, over the tailored CV's text, and changes nothing |
| CvTailor.CvTailoringEngine.RestructureExperienceSection | src/engines/cv_tailor.py:239-260 | a placeholder that edits nothing: it succeeds and records "structure_mirrored" exactly when the analysis lists responsibilities, and otherwise changes nothing |
| CvTailor.CvTailoringEngine.GenerateTailoredCv | src/engines/cv_tailor.py:262-298 | the CV passes through the title match, the keyword injection under "PROFESSIONAL EXPERIENCE", the skills, values and logistics sections in that order; the operations record is replaced by one flag per operation plus the keyword report of the final CV, whose percentage is returned with success |
| JdParser.CollapseSpace | src/parsers/jd_parser.py:85 | no longer than the input, starts with whitespace exactly when the input does, and every whitespace character left is a single space with no two in a row |
| JdParser.LeadFragments | src/parsers/jd_parser.py:90-91 | splitting the first 500 characters at every full stop gives at least one fragment |
| JdParser.JobTitle | src/parsers/jd_parser.py:80-96 | the first template capture that cleans to at most six words, cleaned; else the first fragment of the opening 500 characters with two to five words whose alphabetic initials are capitals, its words joined by single spaces; else "Unknown Title" |
| JdParser.UnknownTitleWords | src/parsers/jd_parser.py:96 | the sentinel title has two words |
| JdParser.JobTitleWords | src/parsers/jd_parser.py:80-96 | whichever branch returns it, the title has at most six words |
| JdParser.FindCapturedTitle | src/parsers/jd_parser.py:80-87 | the template loop returns a title exactly when some capture is accepted, and then the first accepted one, cleaned |
| JdParser.FindFallbackTitle | src/parsers/jd_parser.py:89-94 | the fragment loop returns a title exactly when some fragment is title-like, and then the first one's words joined by single spaces |
| JdParser.FirstAltFrom | src/parsers/jd_parser.py:14-19 | the first alternative from a given one on that matches at the offset, ignoring case, followed by a word boundary; none when no later alternative does |
| JdParser.SkillMatchAt | src/parsers/jd_parser.py:108 | a match tried at an offset is non-empty and lies within the text |
| JdParser.SkillMatchesAreSpans | src/parsers/jd_parser.py:108-110 | every match the scan reports is, in the text's own case, a whole-word occurrence of one of the pattern's alternatives |
| JdParser.AddAll | src/parsers/jd_parser.py:109-110 | adding each match in turn to the set gives the set plus the matches |
| JdParser.MatchesOfPatternsStep | src/parsers/jd_parser.py:107-110 | one more skill category adds exactly the elements of its matches |
| JdParser.TechnicalSkillsAreSpans | src/parsers/jd_parser.py:105-110 | every skill found is a whole-word occurrence in the text of some category's alternative |
| JdParser.CppAtEndNotFound | src/parsers/jd_parser.py:15 | a text that is just "C++" yields no programming skill, because the word boundary after the second `+` needs a word character to follow |
| JdParser.NoSkillAtStartOfCpp | src/parsers/jd_parser.py:15 | at the start of "C++" no alternative matches with a word boundary after it |
| JdParser.NoSkillAfterC | src/parsers/jd_parser.py:15 | at the second character of "C++" no alternative starts |
| JdParser.Window | src/parsers/jd_parser.py:129-133 | empty when the marker is absent from the lower-cased text; otherwise the slice of at most 500 characters starting where the marker first occurs |
| JdParser.WindowStartsWithMarker | src/parsers/jd_parser.py:129-133 | a present marker opens its own window, compared in lower case |
| JdParser.Windows | src/parsers/jd_parser.py:128-140 | the windows of the markers concatenated hold at most 500 characters per marker |
| JdParser.ConcatWindows | src/parsers/jd_parser.py:128-133 | the marker loop builds the concatenation of the windows in marker order |
| JdParser.RequiredPreferredItemsAreLines | src/parsers/jd_parser.py:142-168 | every required and every preferred item is a single line |
| JdParser.BreakFrom | src/parsers/jd_parser.py:192 | the first offset from a given one where a sentence break (`.`, `!` or `?` then whitespace) starts, or the end of the text when there is none |
| JdParser.SplitSentences | src/parsers/jd_parser.py:192 | at least one piece, and no piece contains a sentence break |
| JdParser.Mapped | src/parsers/jd_parser.py:195 | the function applied to each entry, in order |
| JdParser.FilterMapped | src/parsers/jd_parser.py:194-205 | no more kept entries than entries |
| JdParser.FilterMappedSpec | src/parsers/jd_parser.py:194-205 | an entry is kept exactly when it is the image of some input entry and is accepted |
| JdParser.FilterMappedInOrder | src/parsers/jd_parser.py:194-205 | the kept entries keep the order of the input |
| JdParser.VerbatimPhrasesSpec | src/parsers/jd_parser.py:170-207 | at most ten phrases, each a whole stripped sentence with a word count in range and a skill indicator, in the order of the text |
| JdParser.VerbatimPhrasesComplete | src/parsers/jd_parser.py:194-207 | every qualifying sentence is kept when at most ten qualify |
| JdParser.ExtractVerbatimPhrases | src/parsers/jd_parser.py:182-207 | the sentence loop followed by the cut to ten gives the phrases the specification function describes |
| JdParser.ValuesOf | src/parsers/jd_parser.py:226-233 | at most five words per marker, each a capitalised word |
| JdParser.CompanyValuesSpec | src/parsers/jd_parser.py:209-235 | at most thirty distinct values, each a capital letter followed by lower-case letters |
| JdParser.ValuesStep | src/parsers/jd_parser.py:226-233 | one more marker appends exactly the words of its window, or nothing when the marker is absent |
| JdParser.ExtractCompanyValues | src/parsers/jd_parser.py:216-235 | the list returned lists each kept value exactly once, in the set's iteration order |
| JdParser.ClassifyFrom | src/parsers/jd_parser.py:273-277 | a line is a bullet when the bullet pattern matches its stripped text, a stop when it is non-empty and does not start with a capital, and otherwise neither |
| JdParser.Classes | src/parsers/jd_parser.py:272-277 | one class per line |
| JdParser.ClassesAt | src/parsers/jd_parser.py:272-277 | the class of line k is the classification of line k |
| JdParser.BulletsFrom | src/parsers/jd_parser.py:272-277 | at most one bullet per scanned line |
| JdParser.BulletsUnder | src/parsers/jd_parser.py:272-281 | a header collects at most 19 bullets |
| JdParser.ScanStopsAt | src/parsers/jd_parser.py:276-277 | a line that stops the scan hides every line after it |
| JdParser.BulletsFromBulletLines | src/parsers/jd_parser.py:273-275 | every bullet collected is the text of a bullet line in the scanned range |
| JdParser.HeaderRecordedTwice | src/parsers/jd_parser.py:252-265 | because every header pattern is tried with no break, the line "A :" is recorded as a section twice |
| JdParser.HeaderStepsOfA | src/parsers/jd_parser.py:261-265 | on "A :" the ALL-CAPS and the Title-case patterns each add "A", and the bold pattern adds nothing |
| JdParser.HeaderStepNone | src/parsers/jd_parser.py:262-263 | a pattern that does not match leaves the structure unchanged |
| JdParser.HeaderStepOther | src/parsers/jd_parser.py:264-279 | a header that is neither a responsibilities nor a requirements header only adds itself to the sections |
| JdParser.HeaderShapesOfA | src/parsers/jd_parser.py:253-255 | "A :" matches the ALL-CAPS and the Title-case header shapes, both with header "A", and not the bold shape |
| JdParser.BulletStep | src/parsers/jd_parser.py:273-275 | collecting a bullet line keeps the collected bullets followed by the rest of the scan equal to the whole scan |
| JdParser.ScanBullets | src/parsers/jd_parser.py:271-278 | the scan loop collects exactly the bullets the scan function describes |
| JdParser.AnalyzeStructure | src/parsers/jd_parser.py:237-289 | the nested loops build the structure the specification function describes |
| JdParser.NonStop | src/parsers/jd_parser.py:306-307 | a word is kept exactly when it is in the list and not a stop word |
| JdParser.DensityWords | src/parsers/jd_parser.py:304-307 | every counted word is a run of four or more lower-case letters and not a stop word |
| JdParser.IndexOfWord | src/parsers/jd_parser.py:309 | the first position of the word in the tally, or the tally's length when it is absent |
| JdParser.Tally | src/parsers/jd_parser.py:309 | each distinct word exactly once, paired with its number of occurrences |
| JdParser.InsertByCount | src/parsers/jd_parser.py:309 | inserting into a list sorted by descending count keeps it sorted and adds exactly the one entry |
| JdParser.SortByCount | src/parsers/jd_parser.py:309 | sorted by descending count and a permutation of the input |
| JdParser.MostCommonSpec | src/parsers/jd_parser.py:309 | at most n pairs, most frequent first, each a word of the list with its number of occurrences |
| JdParser.TallySize | src/parsers/jd_parser.py:309 | the tally has one entry per distinct word |
| JdParser.MostCommonComplete | src/parsers/jd_parser.py:309 | when there are at most n distinct words, every one of them is reported |
| JdParser.MostCommonDistinct | src/parsers/jd_parser.py:309 | no word is reported twice |
| JdParser.MostCommonTop | src/parsers/jd_parser.py:309 | a word of the list that is not reported was crowded out: n pairs were reported and it occurs no more often than the last of them |
| JdParser.KeywordDensitySpec | src/parsers/jd_parser.py:291-309 | at most twenty pairs, most frequent first; each word is a kept word and its count is how often it occurs among the kept words |
| JdParser.KeywordDensityComplete | src/parsers/jd_parser.py:304-309 | with at most twenty distinct kept words, every one of them is reported |
| JdParser.KeywordDensityTop | src/parsers/jd_parser.py:304-309 | the top twenty: the reported words are distinct, and a kept word left out occurs no more often than the twentieth word reported |
| JdParser.ExtractExperienceRequirements | src/parsers/jd_parser.py:311-336 | the list returned lists each year or domain match exactly once |
| JdParser.JobDescriptionParser.constructor | src/parsers/jd_parser.py:29-37 | the parser holds the text, its lower-case copy and the captures it is given |
| JdParser.JobDescriptionParser.ExtractJobTitle | src/parsers/jd_parser.py:63-96 | returns the title the title function describes, of at most six words |
| JdParser.JobDescriptionParser.ExtractTechnicalSkills | src/parsers/jd_parser.py:98-112 | returns the distinct matched skills, strictly sorted |
| JdParser.JobDescriptionParser.ExtractRequiredVsPreferred | src/parsers/jd_parser.py:114-145 | returns the items of the required-marker windows and of the preferred-marker windows |
| JdParser.JobDescriptionParser.ExtractAll | src/parsers/jd_parser.py:338-358 | every field is what its extractor returns, and the tools list equals the technical skills |
| JdParser.JobDescriptionParser.ExportKeywordChecklist | src/parsers/jd_parser.py:360-376 | the required, preferred, technical, tools and values lists of the analysis, with only the first five phrases |
| AtsCompatibility.LastIndexOf | src/checkers/ats_compatibility.py:81 | absent exactly when the character does not occur; otherwise an index holding the character with no occurrence after it |
| AtsCompatibility.BaseName | src/checkers/ats_compatibility.py:81 | the file name is a tail of the path containing no '/' |
| AtsCompatibility.Extension | src/checkers/ats_compatibility.py:81 | the extension is empty or starts with a dot, and contains no '/' |
| AtsCompatibility.ExtensionIsSuffix | src/checkers/ats_compatibility.py:81 | the extension is a tail of the path |
| AtsCompatibility.ExtensionOfDocxName | src/checkers/ats_compatibility.py:65-66 | "cv.docx" has the extension ".docx", also once lower-cased |
| AtsCompatibility.HiddenFileHasNoExtension | src/checkers/ats_compatibility.py:65 | a file named ".docx" has no extension, so it is not loaded and fails the format check |
| AtsCompatibility.SumDeductionsAppend | src/checkers/ats_compatibility.py:86-90 | the points of two issue lists add up |
| AtsCompatibility.AllDeductAppend | src/checkers/ats_compatibility.py:86-90 | two lists whose issues all deduct points give such a list |
| AtsCompatibility.NoDeductionMeansNoIssues | src/checkers/ats_compatibility.py:86-90 | when every issue deducts points, nothing is deducted exactly when no issue was recorded |
| AtsCompatibility.FormatIssues | src/checkers/ats_compatibility.py:81-93 | an issue is recorded exactly when the lower-cased extension is not in the allowed list |
| AtsCompatibility.FormatIssuesDeduction | src/checkers/ats_compatibility.py:84-91 | the recorded issue accounts for the 30 points deducted, and each issue deducts something |
| AtsCompatibility.LayoutIssues | src/checkers/ats_compatibility.py:102-103 | without a loaded document nothing is recorded |
| AtsCompatibility.LayoutIssuesSpec | src/checkers/ats_compatibility.py:107-130 | the table issue is recorded exactly when there is a table, the column issue exactly when some section has more than one column, and at most two issues |
| AtsCompatibility.LayoutIssuesDeduction | src/checkers/ats_compatibility.py:105-132 | the recorded issues account for the 15 and 10 points deducted |
| AtsCompatibility.BadSizesSpec | src/checkers/ats_compatibility.py:161-164 | a size is listed exactly when some run has that non-zero size outside the range |
| AtsCompatibility.SizeText | src/checkers/ats_compatibility.py:178 | the printed size is never empty |
| AtsCompatibility.SizeTexts | src/checkers/ats_compatibility.py:178 | one printed size per size |
| AtsCompatibility.FontIssues | src/checkers/ats_compatibility.py:141-142 | without a loaded document nothing is recorded |
| AtsCompatibility.FontIssuesSpec | src/checkers/ats_compatibility.py:166-183 | whatever order the sets list their members in, the recorded issues account for the 10 and 5 points deducted |
| AtsCompatibility.ScanFonts | src/checkers/ats_compatibility.py:149-164 | the loop over paragraphs and runs collects exactly the non-standard font names and, in run order, the out-of-range sizes |
| AtsCompatibility.NonStandardFontsSnoc | src/checkers/ats_compatibility.py:156-159 | one more run adds its font name exactly when it is set and not allowed |
| AtsCompatibility.BadSizesSnoc | src/checkers/ats_compatibility.py:161-164 | one more run appends its size exactly when it is set, non-zero and out of range |
| AtsCompatibility.SectionsStep | src/checkers/ats_compatibility.py:197-218 | one more section adds its own issues and its header and footer counts |
| AtsCompatibility.SectionsDeduction | src/checkers/ats_compatibility.py:197-220 | 8 points for each section whose header shows text and 7 for each whose footer does |
| AtsCompatibility.SectionsAllDeduct | src/checkers/ats_compatibility.py:202-217 | every header or footer issue deducts points |
| AtsCompatibility.HeaderFooterIssues | src/checkers/ats_compatibility.py:192-193 | without a loaded document nothing is recorded |
| AtsCompatibility.HeaderFooterIssuesDeduction | src/checkers/ats_compatibility.py:185-220 | the recorded issues account for the points deducted |
| AtsCompatibility.GraphicsIssues | src/checkers/ats_compatibility.py:229-250 | one issue exactly when a document is loaded and some relationship target contains "image" in lower case; otherwise none |
| AtsCompatibility.GraphicsIssuesDeduction | src/checkers/ats_compatibility.py:244-252 | the recorded issue accounts for the 20 points deducted |
| AtsCompatibility.CaseSensitiveImpliesGraphicsIssue | src/checkers/ats_compatibility.py:237-240 | whatever the document handler reports as graphics, the checker flags too |
| AtsCompatibility.UpperCaseImageOnlyFlaggedByChecker | src/checkers/ats_compatibility.py:238 | a relationship target "IMAGE" is flagged by the checker but not by the document handler's case-sensitive test |
| AtsCompatibility.FoundGlyphs | src/checkers/ats_compatibility.py:268-269 | a glyph is reported exactly when it is in the list and occurs in the text |
| AtsCompatibility.SpecialCharIssues | src/checkers/ats_compatibility.py:261-262 | without a loaded document nothing is recorded, and never more than one issue |
| AtsCompatibility.SpecialCharIssuesSpec | src/checkers/ats_compatibility.py:265-279 | one issue exactly when an unusual glyph occurs in the paragraph text, and it accounts for the 5 points deducted |
| AtsCompatibility.AllIssuesDeduction | src/checkers/ats_compatibility.py:288-295 | the issues of the six checks account for every point deducted, each issue for a positive amount |
| AtsCompatibility.FinalScore | src/checkers/ats_compatibility.py:297 | the score is between 0 and 100 |
| AtsCompatibility.PerfectScoreIffNoIssues | src/checkers/ats_compatibility.py:281-297 | the score is 100 exactly when no check recorded an issue |
| AtsCompatibility.WithoutDocumentOnlyFormatCounts | src/checkers/ats_compatibility.py:64-72 | without a loaded document only the format check records anything, so the score is 100 or 70 |
| AtsCompatibility.ScoringBlockIgnored | src/checkers/ats_compatibility.py:15-61 | the rules' scoring block does not change the score, since the checks use the class's fixed weights |
| AtsCompatibility.TableAndFontScenario | src/checkers/ats_compatibility.py:108-172 | a .docx CV with one table and an 11-point Comic Sans paragraph under the default rules scores 75 |
| AtsCompatibility.DocxIsAllowedByDefault | src/checkers/ats_compatibility.py:44-49 | a .docx file passes the default format rule |
| AtsCompatibility.Grade | src/checkers/ats_compatibility.py:317-336 | "A - Excellent" exactly from 90 on, "B - Good" exactly from 80 to below 90, "C - Acceptable" exactly from 70 to below 80, "D - Needs Improvement" exactly from 60 to below 70, and "F - Major Issues" exactly below 60 |
| AtsCompatibility.GradeMonotone | src/checkers/ats_compatibility.py:327-336 | a higher score never gets a worse grade |
| AtsCompatibility.Recommendation | src/checkers/ats_compatibility.py:348-361 | one of the six advice texts or none; an issue mentioning "table" gets the table advice, and one with no advice does not mention "format" |
| AtsCompatibility.Recommendations | src/checkers/ats_compatibility.py:338-363 | at most one recommendation per issue, all among the six advice texts |
| AtsCompatibility.RecommendationsSpec | src/checkers/ats_compatibility.py:347-363 | a recommendation is given exactly when some issue calls for it |
| AtsCompatibility.WithDeductionAppend | src/checkers/ats_compatibility.py:311 | picking the issues with one deduction distributes over concatenation |
| AtsCompatibility.InsertByDeductionPerm | src/checkers/ats_compatibility.py:311 | inserting adds exactly the one issue |
| AtsCompatibility.InsertByDeductionSorted | src/checkers/ats_compatibility.py:311 | inserting into a list sorted by descending deduction keeps it sorted |
| AtsCompatibility.InsertByDeductionStable | src/checkers/ats_compatibility.py:311 | the inserted issue comes after the issues with its own deduction |
| AtsCompatibility.SortByDeductionSpec | src/checkers/ats_compatibility.py:311 | the sorted issues are a permutation of the issues, highest deduction first |
| AtsCompatibility.SortByDeductionStable | src/checkers/ats_compatibility.py:311 | issues with equal deductions keep their relative order |
| AtsCompatibility.ATSCompatibilityChecker.constructor | src/checkers/ats_compatibility.py:23-72 | the checker starts with no issues and score 100, the default rules when no rules file exists, and a document only for a .docx path in any letter case |
| AtsCompatibility.ATSCompatibilityChecker.CheckFileFormat | src/checkers/ats_compatibility.py:74-93 | appends the format issues and returns minus their points |
| AtsCompatibility.ATSCompatibilityChecker.CheckLayout | src/checkers/ats_compatibility.py:95-132 | appends the layout issues and returns minus their points |
| AtsCompatibility.ATSCompatibilityChecker.CheckFonts | src/checkers/ats_compatibility.py:134-183 | appends the font issues, listing each offending font and size once, and returns minus their points |
| AtsCompatibility.ATSCompatibilityChecker.CheckSection | src/checkers/ats_compatibility.py:198-218 | appends one section's header and footer issues and returns their points |
| AtsCompatibility.ATSCompatibilityChecker.CheckHeadersFooters | src/checkers/ats_compatibility.py:185-220 | appends the header and footer issues and returns minus their points |
| AtsCompatibility.ATSCompatibilityChecker.CheckGraphics | src/checkers/ats_compatibility.py:222-252 | appends the graphics issue, if any, and returns minus its points |
| AtsCompatibility.ATSCompatibilityChecker.CheckSpecialCharacters | src/checkers/ats_compatibility.py:254-279 | appends the glyph issue, if any, and returns minus its points |
| AtsCompatibility.ATSCompatibilityChecker.CalculateTotalScore | src/checkers/ats_compatibility.py:281-297 | appends the six checks' issues after those of earlier calls, sets the score to 100 minus their points and returns it clamped at 0 |
| AtsCompatibility.ATSCompatibilityChecker.GenerateReport | src/checkers/ats_compatibility.py:299-315 | reports the final score, its grade, every issue recorded so far sorted stably by deduction, and their recommendations |
| Patterns.LastNonNewline | src/parsers/jd_parser.py:160 | the last position in the range holding a character other than a newline, with only newlines after it; none when the range is all newlines |
| Patterns.CaptureRest | src/parsers/jd_parser.py:160-161 | the group of `\s*(.+)` tried at an offset is a non-empty run without newlines that ends at a newline or at the end of the text; there is none only when only newlines follow |
| Patterns.MatchBullet | src/parsers/jd_parser.py:273 | a bullet line needs at least two characters starting with a bullet glyph, and every single line of that shape matches |
| Patterns.SpanDigits | src/parsers/jd_parser.py:161 | the longest prefix made of digits |
| Patterns.OpenerEnd | src/parsers/jd_parser.py:160-161 | an opener that matches ends after the offset it was tried at, within the text |
| Patterns.ItemAt | src/parsers/jd_parser.py:160-166 | an item found at an offset is a single line and the match ends after the offset |
| Patterns.FindItemsFrom | src/parsers/jd_parser.py:164-166 | the scan finds no more items than there are characters to scan |
| Patterns.GroupAt | src/checkers/quality_validator.py:45 | a group found at an offset starts after the opener and is non-empty |
| Patterns.FindGroupsFrom | src/checkers/quality_validator.py:45 | `findall` finds no more groups than there are characters to scan |
| Patterns.StripAll | src/parsers/jd_parser.py:166 | each entry stripped, in order |
| Patterns.GroupsStripToItems | src/checkers/quality_validator.py:45 | the groups `findall` returns, once stripped, are exactly the items `finditer` with `.strip()` returns |
| Patterns.StripHasNoNewline | src/parsers/jd_parser.py:166 | stripping a slice without newlines leaves none |
| Patterns.ItemsAreSingleLines | src/parsers/jd_parser.py:160-166 | every item found is a single line |
| Patterns.NoOpenerNoItems | src/parsers/jd_parser.py:164-166 | a text with no opener from the offset on yields no items |
| Patterns.ExtractBullets | src/parsers/jd_parser.py:147-168 | the dash-bullet items then the numbered items, at most two per character of text |
| Patterns.DropColon | src/parsers/jd_parser.py:253 | the text with at most one trailing character removed |
| Patterns.AllCapsHeader | src/parsers/jd_parser.py:253 | a match is a capital followed by at least one capital or whitespace character, and the line is the header with at most a colon after it |
| Patterns.TitleCaseHeader | src/parsers/jd_parser.py:254 | a match is a capital followed by at least one lower-case or whitespace character, and the line is the header followed by a colon |
| Patterns.SpanNonStar | src/parsers/jd_parser.py:255 | the longest prefix without `*` |
| Patterns.MarkdownHeader | src/parsers/jd_parser.py:255 | a match is a non-empty text without `*`, and the line starts with it between double asterisks |
| Patterns.FirstHeader | src/parsers/structure_analyzer.py:31-45 | a header is found exactly when one of the three shapes matches, and it is the match of one of them |
| Patterns.SpanCapsOrSpace | src/parsers/structure_analyzer.py:85 | the longest prefix of capitals and whitespace |
| Patterns.SpanWord | src/parsers/jd_parser.py:232 | the longest prefix of word characters |
| Patterns.SpanNonWord | src/parsers/jd_parser.py:232 | the longest prefix without word characters |
| Patterns.WordRuns | src/parsers/jd_parser.py:232 | every run found is a non-empty run of word characters |
| Patterns.CapitalizedWords | src/parsers/jd_parser.py:232 | every match is a capital followed by one or more lower-case letters |
| Patterns.CapitalizedOf | src/parsers/jd_parser.py:232 | the capitalised runs among the word runs, no more of them than runs |
| Patterns.LongLowerWords | src/parsers/jd_parser.py:304 | every match is a run of four or more lower-case letters |
| Patterns.LongLowerOf | src/parsers/jd_parser.py:304 | the long lower-case runs among the word runs, no more of them than runs |
| TextUtil.LowerChar | src/parsers/jd_parser.py:37 | an ASCII capital maps to its lower-case letter, and every other character to itself |
| TextUtil.Lower | src/parsers/jd_parser.py:37 | lower-casing keeps the length and maps each character, so offsets found in the lower-cased text index the original |
| TextUtil.LowerAppend | src/parsers/jd_parser.py:37 | lower-casing distributes over concatenation |
| TextUtil.SpanNonSpace | src/parsers/jd_parser.py:92 | the longest prefix without whitespace |
| TextUtil.Strip | src/parsers/jd_parser.py:83 | stripping never lengthens a text, and a non-empty result neither starts nor ends with whitespace |
| TextUtil.StripKeepsChars | src/parsers/jd_parser.py:83 | stripping only removes characters |
| TextUtil.StripEmptyIffBlank | src/parsers/jd_parser.py:195-197 | a text strips to nothing exactly when it is all whitespace |
| TextUtil.StripOfToken | src/parsers/jd_parser.py:92 | a word without whitespace is its own stripped form |
| TextUtil.SplitWs | src/parsers/jd_parser.py:92 | every piece of `split()` is a non-empty run without whitespace, and a blank text has no pieces |
| TextUtil.WordCountBound | src/engines/cover_letter_gen.py:264 | a text has at most half as many words as characters after its leading whitespace, rounded up |
| TextUtil.SplitWsWordThen | src/parsers/jd_parser.py:92 | a word followed by whitespace or nothing is the first piece of the split |
| TextUtil.SplitJoinRoundTrip | src/parsers/jd_parser.py:92-94 | splitting words joined by single spaces gives the words back |
| TextUtil.JoinAppendToLast | src/assistants/application_form.py:138-140 | appending text without whitespace to joined words extends the last word |
| TextUtil.IndexOfChar | src/parsers/jd_parser.py:258 | the first position of the character from a given one on, or the end of the text |
| TextUtil.SplitOn | src/parsers/jd_parser.py:258 | splitting on a character gives at least one piece, and no piece contains the separator |
| TextUtil.SplitOnJoinRoundTrip | src/parsers/jd_parser.py:258 | joining the pieces with the separator gives the text back |
| TextUtil.FindFrom | src/parsers/jd_parser.py:130 | the first occurrence from a given offset on, none before it; absent when there is none |
| TextUtil.Find | src/parsers/jd_parser.py:129-130 | found exactly when the text contains the pattern, and then at its first occurrence |
| TextUtil.ContainsMiddle | src/engines/cover_letter_gen.py:46-48 | a text contains each piece it is built from |
| TextUtil.NoneContained | src/checkers/keyword_matcher.py:120-130 | a text shorter than each pattern, or lacking one of each pattern's letters, contains none of them |
| TextUtil.LowerKeepsLowerOccurrence | src/checkers/keyword_matcher.py:120-130 | an occurrence of a lower-case pattern survives lower-casing the text |
| TextUtil.WholeWordIsContained | src/checkers/keyword_matcher.py:43-44 | a whole-word match of a keyword is an occurrence of it |
| TextUtil.ReplaceAllAbsent | src/engines/cover_letter_gen.py:172 | replacing a phrase that does not occur leaves the text unchanged |
| TextUtil.NatToString | src/trackers/analytics.py:101 | the printed number is a non-empty run of digits |
| TextUtil.ElemsAppend | src/parsers/jd_parser.py:235 | the elements of a concatenation are the elements of its parts |
| TextUtil.EnumerationSize | src/parsers/jd_parser.py:235 | a list naming every element of a set exactly once is as long as the set is large |
| TextUtil.SetToSeq | src/parsers/jd_parser.py:235 | `list(set(...))` names every element of the set exactly once |
| TextUtil.LexLessIrreflexive | src/parsers/jd_parser.py:112 | no string is less than itself |
| TextUtil.LexLessTransitive | src/parsers/jd_parser.py:112 | the string order is transitive |
| TextUtil.LexLessTotal | src/parsers/jd_parser.py:112 | of two different strings one is less than the other |
| TextUtil.InsertSorted | src/parsers/jd_parser.py:112 | inserting into a strictly sorted list keeps it strictly sorted and adds exactly the element |
| TextUtil.SortedUnique | src/parsers/jd_parser.py:112 | `sorted(set(xs))` is strictly sorted with exactly the elements of the list |
| TextUtil.StrictlySortedIsDistinct | src/parsers/jd_parser.py:112 | a strictly sorted list has no duplicates |
| TextUtil.StrictlySortedUnique | src/parsers/jd_parser.py:105-112 | two strictly sorted lists with the same elements are equal, so both skill lists of the analysis are the same |
| TextUtil.ElemsSize | src/parsers/jd_parser.py:235 | a list has at least as many entries as distinct elements |
| TextUtil.FirstWhere | src/parsers/jd_parser.py:80-87 | the first entry from a given one on that passes, none before it; absent when none passes |
| TextUtil.FirstWhereIsFirst | src/parsers/jd_parser.py:80-87 | an entry that passes with none passing before it is the one found |
| TextUtil.Take | src/parsers/jd_parser.py:207 | `xs[:n]` is a prefix of at most n entries, all of them when the list is short and exactly n otherwise |
| TextUtil.FilterMembers | src/trackers/analytics.py:34-38 | an entry is kept exactly when it satisfies the condition, and rejected exactly when it does not |
| TextUtil.FilterRejectSplit | src/trackers/analytics.py:34-38 | the kept and the rejected entries together are the list, duplicates included |
| TextUtil.FilterDistinct | src/trackers/analytics.py:34-38 | filtering a list without duplicates leaves both sides without duplicates |
| TextUtil.FilterRejectInOrder | src/trackers/analytics.py:34-38 | both sides keep the order of the list |
| TextUtil.Percentage | src/engines/cv_tailor.py:196 | zero without a total; otherwise exactly the share times 100, between 0 and 100 when the count is within the total, and 100 exactly when all are counted |

## Left out

- Analytics.CalculateResponseRate: the rate is the exact ratio times 100. The `round(x, 1)` of the source is not modelled, because floating-point rounding is outside the model.
- Analytics.CalculateInterviewRate: the rate is not rounded to one decimal, for the same reason.
- KeywordMatching.KeywordMatcher.CalculateMatchPercentage: the overall `match_percentage` is not rounded to one decimal, for the same reason. The per-category percentages are not rounded in the source either.
- CvTailor.DensityCounts: the keyword-density percentage is not rounded to one decimal, for the same reason.
- AtsCompatibility.ATSCompatibilityChecker.GenerateReport: recommendations are a set. The order `list(set(...))` gives them depends on string hashing and is not modelled.
- KeywordMatching.KeywordMatcher.GetMatchReport: the two iterations of the keyword set, in the match count and in the suggestions, are separate ghost orders. The model does not tie them to each other.
- KeywordMatching.KeywordMatcher.GetMatchReport: the grade is taken on the exact percentage, while the source grades the value rounded to one decimal. Near a threshold the two differ: 188 of 209 keywords is 89.95...%, which the source rounds to 90.0 and grades "Excellent", and the model grades "Good".
- Opening and saving documents is I/O: python-docx `Document(path)`, `read_docx`, `save_docx` and the other docx_handler file helpers, and the tailored CV's load and save. The document is the snapshot given to the model.
- The `ValueError` the ATS checker raises when a `.docx` file fails to load is not modelled. A `.docx` path comes with a loaded snapshot.
- Loading the YAML formatting rules, the default rules path, the ATS rules file and the salary reference file is I/O. Their contents are parameters.
- The quality validator's reading of the CV file is I/O. Its text and document are parameters. The `warnings` field it sets up is never read by the checks.
- keyword_extractor.py and the spaCy branch of `calculate_keyword_density` call a foreign NLP model. Only the fallback path is modelled.
- Regular-expression matching for the title templates, the experience patterns and the section and job patterns of `utils.py` is not modelled. Their captures are inputs.
- Parsing the JSON block in `parse_resume_to_schema` is an input, and so is its validation against the Pydantic models.
- The `ValueError` that `parse_resume_to_schema` raises when the text path fails is not modelled. The modelled text path cannot fail.
- Python's Unicode case mapping and Unicode `\d` and `\w` are not modelled. They are ASCII here.
- CvTailor.CvTailoringEngine.GenerateTailoredCv: the final `save_docx` is I/O and is not modelled. The returned dict holds a copy of the operations record, where the source returns the same dict object.
- `generate_docx` of cover_letter_gen.py builds and saves a document (I/O). Only its word-count verdict is modelled.
- `get_status_breakdown` and `get_success_metrics` of analytics.py are not modelled. They read the tracker's database summary, and the database is persistence.
- Reading `datetime.now()` is not modelled. Today's date is a parameter.
- The `question` arguments of the STAR generators are accepted and unused, as in the source.
- `_find_section` of keyword_matcher.py is not modelled. `suggest_keyword_placements` computes section positions with it, but nothing reads them, so suggestions do not depend on them.
- The multi-column branch of `check_layout` reads `section.columns`, which a python-docx `Section` does not have. The attribute is modelled as optional, and absent means no deduction.
- The `Pt`/EMU arithmetic is modelled only through the half-point size, which decides every comparison the source makes.
