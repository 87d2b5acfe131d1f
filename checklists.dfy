/**
 * `src/ui/checklists.py`: the two application checklists and the progress
 * recorded against them.  Progress is a map from checklist type to the map
 * of item ids marked complete (every stored value is `True`).
 */
module Checklists {
  import opened TextUtil

  /** One checklist entry. */
  datatype Item = Item(id: string, task: string, priority: string)

  /** A named group of entries of the pre-application checklist. */
  datatype Category = Category(category: string, items: seq<Item>)

  const PreApplication := "pre_application"
  const FinalSubmission := "final_submission"

  const PreApplicationChecklist: seq<Category> := [
    Category("CV PREPARATION", [
      Item("cv_title_match", "Match CV title to exact job title", "HIGH"),
      Item("cv_verbatim_keywords", "Copy verbatim keywords from JD", "HIGH"),
      Item("cv_mirror_structure", "Mirror JD structure in experience section", "HIGH"),
      Item("cv_required_skills", "Include all required skills explicitly", "HIGH"),
      Item("cv_quantifiable", "Add quantifiable achievements", "HIGH"),
      Item("cv_acronyms_full", "Include both acronyms AND full terms", "MEDIUM"),
      Item("cv_values_alignment", "Add Values Alignment section (if company lists values)", "MEDIUM"),
      Item("cv_location_logistics", "Confirm location/logistics in Additional Info", "MEDIUM"),
      Item("cv_ats_formatting", "Check ATS formatting", "HIGH"),
      Item("cv_proofread", "Proofread for errors", "HIGH")
    ]),
    Category("COVER LETTER PREPARATION", [
      Item("cl_hook", "Paragraph 1: Hook with company-specific enthusiasm", "HIGH"),
      Item("cl_technical_match", "Paragraph 2: List technical skills using their terms", "HIGH"),
      Item("cl_experience_story", "Paragraph 3: Give relevant experience example with numbers", "HIGH"),
      Item("cl_why_role", "Paragraph 4: Explain why THIS role excites you", "MEDIUM"),
      Item("cl_close", "Paragraph 5: Confirm logistics and close", "MEDIUM"),
      Item("cl_word_count", "Keep under 400 words", "MEDIUM"),
      Item("cl_tone", "Use human tone (contractions, conversational)", "HIGH"),
      Item("cl_proofread", "Proofread", "HIGH")
    ])
  ]

  const FinalSubmissionChecklist: seq<Item> := [
    Item("final_cv_title", "CV title matches or closely aligns with job title", "HIGH"),
    Item("final_verbatim_keywords", "Verbatim keywords from JD included in CV", "HIGH"),
    Item("final_mirror_structure", "Experience section mirrors JD requirements structure", "HIGH"),
    Item("final_quantifiable", "Quantifiable achievements included (%, £, numbers)", "HIGH"),
    Item("final_ats_format", "CV in ATS-friendly format (.docx, single column)", "HIGH"),
    Item("final_location_logistics", "Location/logistics addressed in CV", "MEDIUM"),
    Item("final_cl_company_interest", "Cover letter shows genuine interest in THIS company", "HIGH"),
    Item("final_cl_terminology", "Cover letter uses company's exact technical terminology", "HIGH"),
    Item("final_cl_values", "Company values aligned with (if mentioned in JD)", "MEDIUM"),
    Item("final_required_fields", "All required application fields completed", "HIGH"),
    Item("final_salary_expectations", "Salary expectations researched and reasonable", "MEDIUM"),
    Item("final_notice_period", "Notice period accurately stated", "MEDIUM"),
    Item("final_right_to_work", "Right to work confirmed (if asked)", "MEDIUM"),
    Item("final_file_names", "File names are professional", "MEDIUM"),
    Item("final_proofread", "Final proofread completed - no errors", "HIGH")
  ]

  /** `sum(len(cat['items']) for cat in categories)`. */
  function ItemCount(cats: seq<Category>): nat {
    if cats == [] then 0 else |cats[0].items| + ItemCount(cats[1..])
  }

  lemma ChecklistSizes()
    ensures ItemCount(PreApplicationChecklist) == 18
    ensures |FinalSubmissionChecklist| == 15
  {
    assert PreApplicationChecklist[1..][1..] == [];
  }

  /** Progress: checklist type to the ids marked complete. */
  type Progress = map<string, map<string, bool>>

  /** `self.progress` as the constructor sets it up. */
  const InitialProgress: Progress := map[PreApplication := map[], FinalSubmission := map[]]

  /** The progress after `mark_complete(t, id)`: the type is created when absent. */
  function MarkedComplete(p: Progress, t: string, id: string): (r: Progress)
    ensures r.Keys == p.Keys + {t}
    ensures id in r[t] && r[t][id]
    ensures r[t].Keys == (if t in p then p[t].Keys else {}) + {id}
    ensures forall u :: u in p && u != t ==> r[u] == p[u]
  {
    var entries := if t in p then p[t] else map[];
    p[t := entries[id := true]]
  }

  /** The progress after `mark_incomplete(t, id)`: the id is removed when recorded, nothing happens otherwise. */
  function MarkedIncomplete(p: Progress, t: string, id: string): (r: Progress)
    ensures r.Keys == p.Keys
    ensures t in p ==> r[t].Keys == p[t].Keys - {id}
    ensures forall u :: u in p && u != t ==> r[u] == p[u]
    ensures !(t in p && id in p[t]) ==> r == p
  {
    if t in p && id in p[t] then p[t := p[t] - {id}] else p
  }

  /** The progress after `reset_checklist(t)`: only a type already present is emptied. */
  function Cleared(p: Progress, t: string): (r: Progress)
    ensures r.Keys == p.Keys
    ensures t in p ==> r[t] == map[]
    ensures forall u :: u in p && u != t ==> r[u] == p[u]
  {
    if t in p then p[t := map[]] else p
  }

  /** The number of items of a checklist type, 0 for an unknown type. */
  function TotalItems(t: string): nat {
    if t == PreApplication then ItemCount(PreApplicationChecklist)
    else if t == FinalSubmission then |FinalSubmissionChecklist|
    else 0
  }

  /** The number of ids recorded complete for a type. */
  function Completed(p: Progress, t: string): nat {
    if t in p then |p[t].Keys| else 0
  }

  /**
   * `get_completion_percentage`: the recorded share of the type's items in
   * percent, 0 for an unknown type.  Recorded ids are not checked against
   * the checklist, so the value is not capped at 100.
   */
  function CompletionPercentage(p: Progress, t: string): (r: real)
    ensures t != PreApplication && t != FinalSubmission ==> r == 0.0
    ensures t == PreApplication ==> r * 18.0 == (Completed(p, t) as real) * 100.0
    ensures t == FinalSubmission ==> r * 15.0 == (Completed(p, t) as real) * 100.0
    ensures 0.0 <= r
  {
    ChecklistSizes();
    if t == PreApplication || t == FinalSubmission then Percentage(Completed(p, t), TotalItems(t)) else 0.0
  }

  /** Marking twice is marking once. */
  lemma MarkCompleteIdempotent(p: Progress, t: string, id: string)
    ensures MarkedComplete(MarkedComplete(p, t, id), t, id) == MarkedComplete(p, t, id)
  {
    var m := MarkedComplete(p, t, id);
    assert m[t][id := true] == m[t];
  }

  /**
   * Marking an id that was not recorded and then unmarking it restores the
   * progress, provided the type existed; otherwise the type is left
   * behind, empty.
   */
  lemma MarkUnmarkRoundTrip(p: Progress, t: string, id: string)
    requires !(t in p && id in p[t])
    ensures t in p ==> MarkedIncomplete(MarkedComplete(p, t, id), t, id) == p
    ensures t !in p ==> MarkedIncomplete(MarkedComplete(p, t, id), t, id) == p[t := map[]]
  {
    var r := MarkedIncomplete(MarkedComplete(p, t, id), t, id);
    if t in p {
      assert r[t] == p[t];
    } else {
      assert r[t] == map[];
    }
  }

  /** Recording a new id raises the count by one; recording a known one changes nothing. */
  lemma MarkCompleteCounts(p: Progress, t: string, id: string)
    ensures t in p && id in p[t] ==> Completed(MarkedComplete(p, t, id), t) == Completed(p, t)
    ensures !(t in p && id in p[t]) ==> Completed(MarkedComplete(p, t, id), t) == Completed(p, t) + 1
  {
  }

  /** More recorded ids than the checklist has items give more than 100 percent. */
  lemma CompletionNotCapped(p: Progress)
    requires PreApplication in p && |p[PreApplication].Keys| > 18
    ensures CompletionPercentage(p, PreApplication) > 100.0
  {
  }

  /** After a reset of a known, present type its completion is 0. */
  lemma ResetClearsCompletion(p: Progress, t: string)
    requires t in p
    ensures Completed(Cleared(p, t), t) == 0
    ensures CompletionPercentage(Cleared(p, t), t) == 0.0
  {
  }

  /** Both completion figures. */
  datatype CompletionStatus = CompletionStatus(preApplication: real, finalSubmission: real)

  /** The checklist system: the fixed checklists and the progress recorded against them. */
  class ChecklistSystem {
    var progress: Progress

    constructor()
      ensures progress == InitialProgress
    {
      progress := InitialProgress;
    }

    method GetPreApplicationChecklist() returns (r: seq<Category>)
      ensures r == PreApplicationChecklist && ItemCount(r) == 18
    {
      ChecklistSizes();
      r := PreApplicationChecklist;
    }

    method GetFinalSubmissionChecklist() returns (r: seq<Item>)
      ensures r == FinalSubmissionChecklist && |r| == 15
    {
      ChecklistSizes();
      r := FinalSubmissionChecklist;
    }

    method MarkComplete(checklistType: string, itemId: string)
      modifies this
      ensures progress == MarkedComplete(old(progress), checklistType, itemId)
    {
      if checklistType !in progress {
        progress := progress[checklistType := map[]];
      }
      progress := progress[checklistType := progress[checklistType][itemId := true]];
    }

    method MarkIncomplete(checklistType: string, itemId: string)
      modifies this
      ensures progress == MarkedIncomplete(old(progress), checklistType, itemId)
    {
      if checklistType in progress && itemId in progress[checklistType] {
        progress := progress[checklistType := progress[checklistType] - {itemId}];
      }
    }

    method GetCompletionPercentage(checklistType: string) returns (r: real)
      ensures r == CompletionPercentage(progress, checklistType)
    {
      var totalItems: nat;
      if checklistType == PreApplication {
        totalItems := ItemCount(PreApplicationChecklist);
      } else if checklistType == FinalSubmission {
        totalItems := |FinalSubmissionChecklist|;
      } else {
        return 0.0;
      }
      var completed := if checklistType in progress then |progress[checklistType].Keys| else 0;
      r := if totalItems > 0 then (completed as real) / (totalItems as real) * 100.0 else 0.0;
    }

    method GetAllCompletionStatus() returns (r: CompletionStatus)
      ensures r.preApplication == CompletionPercentage(progress, PreApplication)
      ensures r.finalSubmission == CompletionPercentage(progress, FinalSubmission)
    {
      var pre := GetCompletionPercentage(PreApplication);
      var fin := GetCompletionPercentage(FinalSubmission);
      r := CompletionStatus(pre, fin);
    }

    method ResetChecklist(checklistType: string)
      modifies this
      ensures progress == Cleared(old(progress), checklistType)
    {
      if checklistType in progress {
        progress := progress[checklistType := map[]];
      }
    }
  }
}
