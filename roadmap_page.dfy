/** The roadmap page of one skill: which skill it shows, the status badges of
    each stage, the action offered for each lesson, the two quiz panels and the
    closing congratulation (src/pages/Roadmap.tsx). */
module RoadmapPage {
  import opened Wrappers
  import opened Learning
  import LessonPage

  /** The skill the page shows for the route's `skillId`; `None` redirects to
      the dashboard. */
  function DisplayedSkill(skills: seq<Skill>, skillId: Option<string>): (r: Option<Skill>)
    ensures r.None? <==> forall i :: 0 <= i < |skills| ==> !LessonPage.HasId(skills[i].id, skillId)
    ensures r.Some? ==> r.value in skills && LessonPage.HasId(r.value.id, skillId)
  {
    LessonPage.FindSkill(skills, skillId)
  }

  /** The three status badges of a stage header, each shown or not. */
  datatype Badges = Badges(completed: bool, inProgress: bool, locked: bool)

  function StageBadges(st: Stage): Badges {
    Badges(st.isCompleted, !st.isCompleted && !st.isLocked, st.isLocked)
  }

  /** Every stage shows at least one badge, and "In Progress" never appears
      next to another one; "Completed" and "Locked" can appear together. */
  lemma BadgesCover(st: Stage)
    ensures var b := StageBadges(st);
      && (b.completed || b.inProgress || b.locked)
      && (b.inProgress ==> !b.completed && !b.locked)
  {
  }

  /** Passing the quiz of a locked stage (nothing in the engine forbids it)
      shows "Completed" and "Locked" at once. */
  lemma LockedAndCompleted(st: Stage)
    requires st.isLocked
    ensures StageBadges(MarkPassed(st)) == Badges(true, false, true)
  {
  }

  /** The action on a lesson row. */
  datatype LessonAction = Disabled | Review | Start

  function LessonActionFor(st: Stage, lesson: Lesson): (a: LessonAction)
    ensures a == Disabled <==> st.isLocked
    ensures a == Review <==> !st.isLocked && lesson.completed
    ensures a == Start <==> !st.isLocked && !lesson.completed
  {
    if st.isLocked then Disabled
    else if lesson.completed then Review
    else Start
  }

  /** The "Quiz Completed" and "Quiz Required" panels. */
  datatype QuizPanels = QuizPanels(completed: bool, required: bool)

  function StageQuizPanels(st: Stage): QuizPanels {
    QuizPanels(st.quizPassed, !st.isLocked && !st.quizPassed)
  }

  /** The two quiz panels are never shown together, and a locked stage whose
      quiz is not passed shows neither. */
  lemma QuizPanelsExclusive(st: Stage)
    ensures !(StageQuizPanels(st).completed && StageQuizPanels(st).required)
    ensures st.isLocked && !st.quizPassed ==> StageQuizPanels(st) == QuizPanels(false, false)
  {
  }

  /** In a tree the engine produces, the "Completed" badge and the "Quiz
      Completed" panel go together. */
  lemma CompletedBadgeIffQuizPanel(skills: seq<Skill>, i: nat, j: nat)
    requires WellFormed(skills)
    requires i < |skills| && j < |skills[i].stages|
    ensures StageBadges(skills[i].stages[j]).completed <==> StageQuizPanels(skills[i].stages[j]).completed
  {
    assert SkillOk(skills[i]);
    assert StageOk(skills[i].stages[j]);
  }

  /** `stages.every(stage => stage.isCompleted)` */
  predicate AllCompleted(stages: seq<Stage>) {
    forall j :: 0 <= j < |stages| ==> stages[j].isCompleted
  }

  /** The congratulation shows for a skill without stages, and in a tree the
      engine produces it shows exactly when every quiz of the skill is passed. */
  lemma AllCompletedMeaning(sk: Skill)
    ensures |sk.stages| == 0 ==> AllCompleted(sk.stages)
    ensures SkillOk(sk) ==> (AllCompleted(sk.stages) <==> forall j :: 0 <= j < |sk.stages| ==> sk.stages[j].quizPassed)
  {
    if SkillOk(sk) {
      assert forall j :: 0 <= j < |sk.stages| ==> StageOk(sk.stages[j]);
    }
  }

  /** In a tree the engine produces, once every stage is completed no stage of
      the skill shows "In Progress" or "Quiz Required". */
  lemma AllCompletedNothingPending(sk: Skill)
    requires SkillOk(sk) && AllCompleted(sk.stages)
    ensures forall j :: 0 <= j < |sk.stages| ==>
      !StageBadges(sk.stages[j]).inProgress && !StageQuizPanels(sk.stages[j]).required
  {
    forall j | 0 <= j < |sk.stages|
      ensures !StageBadges(sk.stages[j]).inProgress && !StageQuizPanels(sk.stages[j]).required
    {
      assert StageOk(sk.stages[j]);
    }
  }
}
