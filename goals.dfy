/** The learning-goal catalogue and its lookup by id. */
module Goals {
  import opened Wrappers
  import Catalog

  datatype LearningGoal = LearningGoal(
    id: string,
    title: string,
    description: string,
    icon: string,
    accent: string)

  const LearningGoals: seq<LearningGoal> := [
    LearningGoal("zero-beginner", "Zero-Beginner",
      "Build confidence with structured, friendly lessons that start from the alphabet.",
      "ZB", "#F6C255"),
    LearningGoal("daily-conversation", "Daily Conversation",
      "Practice casual speaking, understand idioms, and respond naturally in daily chats.",
      "DC", "#8F7CEC"),
    LearningGoal("exam-prep", "Language Exam Prep",
      "Mock exams, targeted drills, and personalized feedback for TOEFL, IELTS, and more.",
      "EX", "#6BA9FF"),
    LearningGoal("business-communication", "Business Communication",
      "Perfect your professional tone for interviews, presentations, and emails.",
      "BC", "#5BC089")
  ]

  function GoalId(g: LearningGoal): string { g.id }

  /**
   * `findGoal`: no result for a missing or empty id; otherwise the
   * catalogue entry with that id, and no result exactly when there is none.
   */
  function FindGoal(goalId: Option<string>): (r: Option<LearningGoal>)
    ensures goalId.None? || goalId == Some("") ==> r.None?
    ensures r.Some? ==> goalId == Some(r.value.id) && r.value in LearningGoals
    ensures goalId.Some? && goalId.value != "" ==>
      (r.None? <==> forall k :: 0 <= k < |LearningGoals| ==> LearningGoals[k].id != goalId.value)
  {
    if goalId.None? || goalId.value == "" then None
    else Catalog.FindFirst(LearningGoals, GoalId, goalId.value)
  }

  /** The four ids are pairwise distinct. */
  lemma GoalIdsDistinct()
    ensures Catalog.DistinctKeys(LearningGoals, GoalId)
  {
    assert LearningGoals[0].id == "zero-beginner" && LearningGoals[1].id == "daily-conversation";
    assert LearningGoals[2].id == "exam-prep" && LearningGoals[3].id == "business-communication";
  }

  /** Looking up a catalogue entry's own id returns that entry. */
  lemma FindGoalReturnsEntry(k: nat)
    requires k < |LearningGoals|
    ensures FindGoal(Some(LearningGoals[k].id)) == Some(LearningGoals[k])
  {
    GoalIdsDistinct();
    Catalog.FindFirstUnique(LearningGoals, GoalId, k);
  }
}
