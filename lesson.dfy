/** The lesson page: resolving the route parameters against the skill tree, the
    two completion handlers, the next-lesson link and the video condition
    (src/pages/Lesson.tsx).

    A route parameter is `Option<string>`: `None` is the `undefined` that
    `useParams` gives for a missing segment. A string is truthy in JavaScript
    exactly when it is non-empty. */
module LessonPage {
  import opened Wrappers
  import opened Learning
  import Lookup
  import QuizFlow
  import Progress

  predicate Truthy(p: Option<string>) {
    p.Some? && |p.value| > 0
  }

  /** `x.id === param`: `undefined` equals no id. */
  predicate HasId(id: string, param: Option<string>) {
    param == Some(id)
  }

  /** The route segment that selects the stage quiz instead of a lesson. */
  const QuizSegment: string := "quiz"

  /** The outcome of the page's effect on a freshly mounted page. The three
      failures each show an error and redirect. */
  datatype View =
    | SkillNotFound
    | StageNotFound
    | LessonNotFound
    | QuizView(skill: Skill, stage: Stage)
    | LessonView(skill: Skill, stage: Stage, lesson: Lesson)

  function FindSkill(skills: seq<Skill>, skillId: Option<string>): Option<Skill> {
    Lookup.Find(skills, (s: Skill) => HasId(s.id, skillId))
  }

  function FindStage(stages: seq<Stage>, stageId: Option<string>): Option<Stage> {
    Lookup.Find(stages, (s: Stage) => HasId(s.id, stageId))
  }

  function FindLesson(lessons: seq<Lesson>, lessonId: Option<string>): Option<Lesson> {
    Lookup.Find(lessons, (l: Lesson) => HasId(l.id, lessonId))
  }

  /** The `useEffect` of the page: skill, then stage, then either the quiz or
      the lesson. */
  function Resolve(skills: seq<Skill>, skillId: Option<string>, stageId: Option<string>,
                   lessonId: Option<string>): (v: View)
    ensures v == SkillNotFound <==> forall i :: 0 <= i < |skills| ==> !HasId(skills[i].id, skillId)
    ensures v.QuizView? || v.LessonView? || v == LessonNotFound || v == StageNotFound ==>
      exists i :: 0 <= i < |skills| && HasId(skills[i].id, skillId)
    ensures v == StageNotFound ==> (FindSkill(skills, skillId).Some? &&
      forall j :: 0 <= j < |FindSkill(skills, skillId).value.stages| ==>
        !HasId(FindSkill(skills, skillId).value.stages[j].id, stageId))
    ensures v.QuizView? <==> (FindSkill(skills, skillId).Some?
      && FindStage(FindSkill(skills, skillId).value.stages, stageId).Some?
      && lessonId == Some(QuizSegment))
    ensures v.QuizView? || v.LessonView? ==>
      v.skill in skills && HasId(v.skill.id, skillId)
      && v.stage in v.skill.stages && HasId(v.stage.id, stageId)
    ensures v.LessonView? ==>
      lessonId != Some(QuizSegment) && v.lesson in v.stage.lessons && HasId(v.lesson.id, lessonId)
    ensures v == LessonNotFound ==> lessonId != Some(QuizSegment)
  {
    match FindSkill(skills, skillId)
    case None => SkillNotFound
    case Some(skill) =>
      match FindStage(skill.stages, stageId)
      case None => StageNotFound
      case Some(stage) =>
        if lessonId == Some(QuizSegment) then QuizView(skill, stage)
        else
          match FindLesson(stage.lessons, lessonId)
          case None => LessonNotFound
          case Some(lesson) => LessonView(skill, stage, lesson)
  }

  /** A lesson that exists in the stage is always reached, unless its id is the
      quiz segment. */
  lemma ResolveFindsLesson(skills: seq<Skill>, i: nat, j: nat, k: nat)
    requires i < |skills| && j < |skills[i].stages| && k < |skills[i].stages[j].lessons|
    requires forall i' :: 0 <= i' < i ==> skills[i'].id != skills[i].id
    requires forall j' :: 0 <= j' < j ==> skills[i].stages[j'].id != skills[i].stages[j].id
    requires skills[i].stages[j].lessons[k].id != QuizSegment
    ensures Resolve(skills, Some(skills[i].id), Some(skills[i].stages[j].id),
                    Some(skills[i].stages[j].lessons[k].id)).LessonView?
  {
    var skillId := Some(skills[i].id);
    assert FindSkill(skills, skillId) == Some(skills[i]) by {
      var r := Lookup.FindIndex(skills, (s: Skill) => HasId(s.id, skillId));
      assert r == i;
    }
    var stageId := Some(skills[i].stages[j].id);
    assert FindStage(skills[i].stages, stageId) == Some(skills[i].stages[j]) by {
      var r := Lookup.FindIndex(skills[i].stages, (s: Stage) => HasId(s.id, stageId));
      assert r == j;
    }
    var lessons := skills[i].stages[j].lessons;
    assert !(forall m :: 0 <= m < |lessons| ==> !HasId(lessons[m].id, Some(lessons[k].id)));
  }

  /** Where each failure redirects to. */
  function Redirect(v: View, skillId: string): (r: Option<string>)
    ensures r.Some? <==> v == SkillNotFound || v == StageNotFound || v == LessonNotFound
  {
    match v
    case SkillNotFound => Some("/dashboard")
    case StageNotFound => Some("/roadmap/" + skillId)
    case LessonNotFound => Some("/roadmap/" + skillId)
    case _ => None
  }

  // ---------------------------------------------------------------------------
  // The handlers

  /** The calls into the progress engine the page can make. */
  datatype Request =
    | CompleteLessonRequest(skillId: string, stageId: string, lessonId: string)
    | PassQuizRequest(skillId: string, stageId: string)

  /** `handleLessonCompletion` */
  function OnLessonCompletion(skillId: Option<string>, stageId: Option<string>,
                              lessonId: Option<string>): (r: Option<Request>)
    ensures r.Some? <==> Truthy(skillId) && Truthy(stageId) && Truthy(lessonId)
                         && lessonId.value != QuizSegment
    ensures r.Some? ==> r.value == CompleteLessonRequest(skillId.value, stageId.value, lessonId.value)
  {
    if Truthy(skillId) && Truthy(stageId) && Truthy(lessonId) && lessonId.value != QuizSegment
    then Some(CompleteLessonRequest(skillId.value, stageId.value, lessonId.value))
    else None
  }

  /** `handleQuizCompletion(score, passed)`: a failed quiz requests nothing. */
  function OnQuizCompletion(passed: bool, skillId: Option<string>, stageId: Option<string>): (r: Option<Request>)
    ensures r.Some? <==> passed && Truthy(skillId) && Truthy(stageId)
    ensures r.Some? ==> r.value == PassQuizRequest(skillId.value, stageId.value)
  {
    if passed && Truthy(skillId) && Truthy(stageId)
    then Some(PassQuizRequest(skillId.value, stageId.value))
    else None
  }

  /** The page runs the stage quiz with threshold 70. */
  const StageQuizThreshold: real := 70.0

  /** Finishing the stage quiz on this page requests `passQuiz` exactly when 100
      times the number of correct answers reaches 70 times the number of
      questions (and both ids are present). */
  lemma QuizCompletionRequestsPass(qs: seq<Question>, answers: seq<Option<int>>,
                                   skillId: Option<string>, stageId: Option<string>)
    requires |qs| > 0 && |answers| == |qs|
    ensures var passed := QuizFlow.Score(qs, answers) >= StageQuizThreshold;
      (OnQuizCompletion(passed, skillId, stageId).Some?
       <==> Progress.MeetsThreshold(QuizFlow.CorrectCount(qs, answers), |qs|, 70.0)
            && Truthy(skillId) && Truthy(stageId))
  {
    QuizFlow.PassedIffCount(qs, answers, StageQuizThreshold);
  }

  // ---------------------------------------------------------------------------
  // Next lesson and video

  datatype NextTarget = NextLesson(lessonId: string) | StageQuiz

  /** `getNextLessonLink`: the lesson after the current one, or the stage quiz
      after the last lesson; nothing without a current lesson. The index is
      found by id, and -1 when the id is not in the stage. */
  function NextLessonTarget(stage: Stage, current: Option<Lesson>): (r: Option<NextTarget>)
    ensures r.None? <==> current.None?
    // the first lesson carrying the current id: its successor, or the quiz after the last
    ensures current.Some? ==> forall k ::
      (0 <= k < |stage.lessons| && stage.lessons[k].id == current.value.id
       && forall m :: 0 <= m < k ==> stage.lessons[m].id != current.value.id) ==>
        (k < |stage.lessons| - 1 ==> r == Some(NextLesson(stage.lessons[k + 1].id)))
        && (k == |stage.lessons| - 1 ==> r == Some(StageQuiz))
    // an id not in the stage is index -1: the first lesson, or the quiz in an empty stage
    ensures current.Some? && (forall j :: 0 <= j < |stage.lessons| ==> stage.lessons[j].id != current.value.id) ==>
      r == if |stage.lessons| > 0 then Some(NextLesson(stage.lessons[0].id)) else Some(StageQuiz)
  {
    match current
    case None => None
    case Some(lesson) =>
      var i := Lookup.FindIndex(stage.lessons, (l: Lesson) => l.id == lesson.id);
      if i < |stage.lessons| - 1 then Some(NextLesson(stage.lessons[i + 1].id)) else Some(StageQuiz)
  }

  /** For a lesson of the stage with distinct ids: the link goes to the next
      lesson in order, and from the last one to the quiz. */
  lemma NextLessonInOrder(stage: Stage, k: nat)
    requires k < |stage.lessons|
    requires forall a, b :: 0 <= a < b < |stage.lessons| ==> stage.lessons[a].id != stage.lessons[b].id
    ensures k < |stage.lessons| - 1 ==>
      NextLessonTarget(stage, Some(stage.lessons[k])) == Some(NextLesson(stage.lessons[k + 1].id))
    ensures k == |stage.lessons| - 1 ==> NextLessonTarget(stage, Some(stage.lessons[k])) == Some(StageQuiz)
  {
    var id := stage.lessons[k].id;
    var i := Lookup.FindIndex(stage.lessons, (l: Lesson) => l.id == id);
    assert i == k;
  }

  /** A lesson whose id is not in the stage has index -1, so the link goes to
      the stage's first lesson whenever the stage has one. */
  lemma NextLessonUnknownId(stage: Stage, lesson: Lesson)
    requires forall j :: 0 <= j < |stage.lessons| ==> stage.lessons[j].id != lesson.id
    ensures |stage.lessons| >= 1 ==> NextLessonTarget(stage, Some(lesson)) == Some(NextLesson(stage.lessons[0].id))
    ensures |stage.lessons| == 0 ==> NextLessonTarget(stage, Some(lesson)) == Some(StageQuiz)
  {
  }

  function LinkPath(skillId: string, stageId: string, t: NextTarget): string {
    "/lesson/" + skillId + "/" + stageId + "/" + (match t case NextLesson(id) => id case StageQuiz => QuizSegment)
  }

  /** `currentLesson?.type === 'video' && currentLesson?.language === preferredLanguage` */
  predicate ShowsVideo(current: Option<Lesson>, preferredLanguage: string) {
    current.Some? && current.value.kind == Video && current.value.language == preferredLanguage
  }

  /** The video is embedded only on the page of a video lesson, and for one
      preferred language at most: switching the language away from the
      lesson's hides it. */
  lemma VideoForOneLanguage(current: Option<Lesson>, preferredLanguage: string, other: string)
    requires other != preferredLanguage
    ensures ShowsVideo(current, preferredLanguage) ==> current.Some? && current.value.kind == Video
    ensures ShowsVideo(current, preferredLanguage) ==> !ShowsVideo(current, other)
  {
  }

  /** The Mark as Completed button is shown only for a lesson not yet completed. */
  predicate ShowsMarkCompleted(current: Option<Lesson>) {
    current.Some? && !current.value.completed
  }

  /** Once the page's completion request has been carried out, the lesson it
      was made for no longer offers the button, and a lesson of another stage
      is not affected. */
  lemma CompletionHidesButton(skills: seq<Skill>, i: nat, j: nat, k: nat)
    requires i < |skills| && j < |skills[i].stages| && k < |skills[i].stages[j].lessons|
    requires CanComplete(skills, skills[i].id, skills[i].stages[j].id)
    ensures var r := CompleteLessonIn(skills, skills[i].id, skills[i].stages[j].id, skills[i].stages[j].lessons[k].id);
      && !ShowsMarkCompleted(Some(r[i].stages[j].lessons[k]))
      && forall j' :: 0 <= j' < |skills[i].stages| && skills[i].stages[j'].id != skills[i].stages[j].id ==>
           r[i].stages[j'] == skills[i].stages[j']
  {
    var lessonId := skills[i].stages[j].lessons[k].id;
    CompleteLessonMarks(skills, skills[i].id, skills[i].stages[j].id, lessonId);
    CompleteLessonFrame(skills, skills[i].id, skills[i].stages[j].id, lessonId);
  }
}
