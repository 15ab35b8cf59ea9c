/** The roadmap progress engine: a Skill -> Stage -> Lesson tree, the two
    mutations `completeLesson` and `passQuiz`, the catalog filter of
    `generateRoadmap`, and the provider that holds the tree together with the
    learning streak and the loading flag (src/context/LearningContext.tsx).

    Progress values are exact reals. The source divides by the number of
    lessons and of stages without a guard; the operations here require the
    lists they divide by to be non-empty. */
module Learning {
  import opened Wrappers
  import opened Text
  import Lookup
  import Progress

  datatype LessonKind = Video | Article | QuizLesson

  datatype Level = Beginner | Intermediate | Advanced

  datatype Lesson = Lesson(
    id: string,
    title: string,
    kind: LessonKind,
    language: string,
    content: string,
    completed: bool)

  datatype Question = Question(
    id: string,
    text: string,
    options: seq<string>,
    correctOptionIndex: int)

  datatype Quiz = Quiz(id: string, questions: seq<Question>)

  datatype Stage = Stage(
    id: string,
    number: int,
    title: string,
    description: string,
    lessons: seq<Lesson>,
    quiz: Quiz,
    isLocked: bool,
    isCompleted: bool,
    quizPassed: bool,
    progress: real)

  datatype Skill = Skill(
    id: string,
    name: string,
    description: string,
    level: Level,
    stages: seq<Stage>,
    progress: real,
    marketingStat: string)

  // ---------------------------------------------------------------------------
  // Roll-up of progress

  /** `lessons.filter(l => l.completed).length` */
  function CompletedCount(lessons: seq<Lesson>): (n: nat)
    ensures n <= |lessons|
    ensures n == 0 <==> forall k :: 0 <= k < |lessons| ==> !lessons[k].completed
    ensures n == |lessons| <==> forall k :: 0 <= k < |lessons| ==> lessons[k].completed
  {
    if |lessons| == 0 then 0
    else (if lessons[0].completed then 1 else 0) + CompletedCount(lessons[1..])
  }

  /** `(completedLessons / totalLessons) * 100` */
  function LessonRatio(lessons: seq<Lesson>): (p: real)
    requires |lessons| > 0
    ensures 0.0 <= p <= 100.0
    ensures p == 100.0 <==> forall k :: 0 <= k < |lessons| ==> lessons[k].completed
    ensures p == 0.0 <==> forall k :: 0 <= k < |lessons| ==> !lessons[k].completed
  {
    Progress.PercentBounds(CompletedCount(lessons), |lessons|);
    Progress.Percent(CompletedCount(lessons), |lessons|)
  }

  function StageProgresses(stages: seq<Stage>): (ps: seq<real>)
    ensures |ps| == |stages|
    ensures forall j :: 0 <= j < |stages| ==> ps[j] == stages[j].progress
  {
    seq(|stages|, j requires 0 <= j < |stages| => stages[j].progress)
  }

  /** `stages.reduce((acc, s) => acc + s.progress, 0) / stages.length` */
  function SkillProgress(stages: seq<Stage>): real
    requires |stages| > 0
  {
    Progress.Mean(StageProgresses(stages))
  }

  // ---------------------------------------------------------------------------
  // Invariant of a tree built from the catalog and changed only by the two
  // mutations

  predicate StageOk(st: Stage) {
    && |st.lessons| > 0
    && 0.0 <= st.progress <= 100.0
    && st.isCompleted == st.quizPassed
  }

  /** A stage other than the first is unlocked only once its predecessor's quiz
      has been passed. */
  predicate UnlockJustified(stages: seq<Stage>) {
    forall j :: 1 <= j < |stages| && !stages[j].isLocked ==> stages[j - 1].quizPassed
  }

  predicate SkillOk(sk: Skill) {
    && |sk.stages| > 0
    && (forall j :: 0 <= j < |sk.stages| ==> StageOk(sk.stages[j]))
    && UnlockJustified(sk.stages)
    && sk.progress == SkillProgress(sk.stages)
  }

  predicate WellFormed(skills: seq<Skill>) {
    forall i :: 0 <= i < |skills| ==> SkillOk(skills[i])
  }

  lemma SkillProgressBounded(sk: Skill)
    requires SkillOk(sk)
    ensures 0.0 <= sk.progress <= 100.0
  {
    Progress.MeanBounds(StageProgresses(sk.stages));
  }

  // ---------------------------------------------------------------------------
  // completeLesson

  function MarkCompleted(lessons: seq<Lesson>, lessonId: string): seq<Lesson> {
    seq(|lessons|, k requires 0 <= k < |lessons| =>
      if lessons[k].id == lessonId then lessons[k].(completed := true) else lessons[k])
  }

  function CompleteInStage(st: Stage, stageId: string, lessonId: string): Stage
    requires st.id == stageId ==> |st.lessons| > 0
  {
    if st.id == stageId then
      var lessons := MarkCompleted(st.lessons, lessonId);
      st.(lessons := lessons, progress := LessonRatio(lessons))
    else st
  }

  /** What `completeLesson` needs to avoid 0/0 on the skill `sk`. */
  predicate CanCompleteIn(sk: Skill, skillId: string, stageId: string) {
    sk.id == skillId ==>
      && |sk.stages| > 0
      && forall j :: 0 <= j < |sk.stages| && sk.stages[j].id == stageId ==> |sk.stages[j].lessons| > 0
  }

  predicate CanComplete(skills: seq<Skill>, skillId: string, stageId: string) {
    forall i :: 0 <= i < |skills| ==> CanCompleteIn(skills[i], skillId, stageId)
  }

  function CompleteInSkill(sk: Skill, skillId: string, stageId: string, lessonId: string): Skill
    requires CanCompleteIn(sk, skillId, stageId)
  {
    if sk.id == skillId then
      var stages := seq(|sk.stages|, j requires 0 <= j < |sk.stages| =>
        CompleteInStage(sk.stages[j], stageId, lessonId));
      sk.(stages := stages, progress := SkillProgress(stages))
    else sk
  }

  /** The tree `completeLesson(skillId, stageId, lessonId)` computes. */
  function CompleteLessonIn(skills: seq<Skill>, skillId: string, stageId: string, lessonId: string): seq<Skill>
    requires CanComplete(skills, skillId, stageId)
  {
    seq(|skills|, i requires 0 <= i < |skills| => CompleteInSkill(skills[i], skillId, stageId, lessonId))
  }

  lemma WellFormedCanComplete(skills: seq<Skill>, skillId: string, stageId: string)
    requires WellFormed(skills)
    ensures CanComplete(skills, skillId, stageId)
  {
    forall i | 0 <= i < |skills| ensures CanCompleteIn(skills[i], skillId, stageId) {
      assert SkillOk(skills[i]);
    }
  }

  /** Only the matched lessons of the matched stages of the matched skills are
      marked; every lesson keeps its other fields and nothing is un-marked. */
  lemma CompleteLessonMarks(skills: seq<Skill>, skillId: string, stageId: string, lessonId: string)
    requires CanComplete(skills, skillId, stageId)
    ensures var r := CompleteLessonIn(skills, skillId, stageId, lessonId);
      && |r| == |skills|
      && forall i, j, k :: 0 <= i < |skills| && 0 <= j < |skills[i].stages| && 0 <= k < |skills[i].stages[j].lessons| ==>
        var old_ := skills[i].stages[j].lessons[k];
        && |r[i].stages| == |skills[i].stages|
        && |r[i].stages[j].lessons| == |skills[i].stages[j].lessons|
        && r[i].stages[j].lessons[k] == old_.(completed := r[i].stages[j].lessons[k].completed)
        && (r[i].stages[j].lessons[k].completed <==>
              old_.completed || (skills[i].id == skillId && skills[i].stages[j].id == stageId && old_.id == lessonId))
  {
  }

  /** Unmatched skills and unmatched stages are left exactly as they were. */
  lemma CompleteLessonFrame(skills: seq<Skill>, skillId: string, stageId: string, lessonId: string)
    requires CanComplete(skills, skillId, stageId)
    ensures var r := CompleteLessonIn(skills, skillId, stageId, lessonId);
      && |r| == |skills|
      && (forall i :: 0 <= i < |skills| && skills[i].id != skillId ==> r[i] == skills[i])
      && (forall i, j :: 0 <= i < |skills| && 0 <= j < |skills[i].stages| && skills[i].stages[j].id != stageId ==>
            |r[i].stages| == |skills[i].stages| && r[i].stages[j] == skills[i].stages[j])
  {
  }

  /** The matched stage's progress is its completed-lesson ratio and its flags
      are untouched; the matched skill's progress is the mean of its stages. */
  lemma CompleteLessonRollUp(skills: seq<Skill>, skillId: string, stageId: string, lessonId: string)
    requires CanComplete(skills, skillId, stageId)
    ensures var r := CompleteLessonIn(skills, skillId, stageId, lessonId);
      forall i :: 0 <= i < |skills| && skills[i].id == skillId ==>
        && |r[i].stages| == |skills[i].stages| > 0
        && r[i] == skills[i].(stages := r[i].stages, progress := r[i].progress)
        && r[i].progress == Progress.Sum(StageProgresses(r[i].stages)) / |r[i].stages| as real
        && forall j :: 0 <= j < |skills[i].stages| && skills[i].stages[j].id == stageId ==>
          var st := r[i].stages[j];
          && st == skills[i].stages[j].(lessons := st.lessons, progress := st.progress)
          && st.progress == (CompletedCount(st.lessons) as real / |st.lessons| as real) * 100.0
          && 0.0 <= st.progress <= 100.0
  {
  }

  lemma {:induction false} MarkCompletedIdempotent(lessons: seq<Lesson>, lessonId: string)
    ensures MarkCompleted(MarkCompleted(lessons, lessonId), lessonId) == MarkCompleted(lessons, lessonId)
  {
    var once := MarkCompleted(lessons, lessonId);
    var twice := MarkCompleted(once, lessonId);
    assert |twice| == |once|;
    forall k | 0 <= k < |once| ensures twice[k] == once[k] {
    }
  }

  lemma CompleteInStageIdempotent(st: Stage, stageId: string, lessonId: string)
    requires st.id == stageId ==> |st.lessons| > 0
    ensures CompleteInStage(CompleteInStage(st, stageId, lessonId), stageId, lessonId)
         == CompleteInStage(st, stageId, lessonId)
  {
    MarkCompletedIdempotent(st.lessons, lessonId);
  }

  lemma CompleteInSkillIdempotent(sk: Skill, skillId: string, stageId: string, lessonId: string)
    requires CanCompleteIn(sk, skillId, stageId)
    ensures CanCompleteIn(CompleteInSkill(sk, skillId, stageId, lessonId), skillId, stageId)
    ensures CompleteInSkill(CompleteInSkill(sk, skillId, stageId, lessonId), skillId, stageId, lessonId)
         == CompleteInSkill(sk, skillId, stageId, lessonId)
  {
    if sk.id == skillId {
      var once := CompleteInSkill(sk, skillId, stageId, lessonId);
      var twice := CompleteInSkill(once, skillId, stageId, lessonId);
      assert |twice.stages| == |once.stages|;
      forall j | 0 <= j < |once.stages| ensures twice.stages[j] == once.stages[j] {
        CompleteInStageIdempotent(sk.stages[j], stageId, lessonId);
      }
      assert twice.stages == once.stages;
    }
  }

  /** A second `completeLesson` with the same ids leaves the tree as the first
      one left it. */
  lemma CompleteLessonIdempotent(skills: seq<Skill>, skillId: string, stageId: string, lessonId: string)
    requires CanComplete(skills, skillId, stageId)
    ensures CanComplete(CompleteLessonIn(skills, skillId, stageId, lessonId), skillId, stageId)
    ensures CompleteLessonIn(CompleteLessonIn(skills, skillId, stageId, lessonId), skillId, stageId, lessonId)
         == CompleteLessonIn(skills, skillId, stageId, lessonId)
  {
    var once := CompleteLessonIn(skills, skillId, stageId, lessonId);
    forall i | 0 <= i < |once| ensures CanCompleteIn(once[i], skillId, stageId) {
      CompleteInSkillIdempotent(skills[i], skillId, stageId, lessonId);
    }
    var twice := CompleteLessonIn(once, skillId, stageId, lessonId);
    forall i | 0 <= i < |once| ensures twice[i] == once[i] {
      CompleteInSkillIdempotent(skills[i], skillId, stageId, lessonId);
    }
  }

  lemma CompleteInSkillOk(sk: Skill, skillId: string, stageId: string, lessonId: string)
    requires SkillOk(sk)
    ensures CanCompleteIn(sk, skillId, stageId)
    ensures SkillOk(CompleteInSkill(sk, skillId, stageId, lessonId))
  {
    if sk.id == skillId {
      var r := CompleteInSkill(sk, skillId, stageId, lessonId);
      forall j | 0 <= j < |r.stages| ensures StageOk(r.stages[j]) {
        assert StageOk(sk.stages[j]);
      }
      forall j | 1 <= j < |r.stages| && !r.stages[j].isLocked ensures r.stages[j - 1].quizPassed {
        assert r.stages[j].isLocked == sk.stages[j].isLocked;
        assert r.stages[j - 1].quizPassed == sk.stages[j - 1].quizPassed;
      }
    }
  }

  /** `completeLesson` keeps every skill well formed. */
  lemma CompleteLessonPreservesWellFormed(skills: seq<Skill>, skillId: string, stageId: string, lessonId: string)
    requires WellFormed(skills)
    ensures CanComplete(skills, skillId, stageId)
    ensures WellFormed(CompleteLessonIn(skills, skillId, stageId, lessonId))
  {
    WellFormedCanComplete(skills, skillId, stageId);
    var r := CompleteLessonIn(skills, skillId, stageId, lessonId);
    forall i | 0 <= i < |r| ensures SkillOk(r[i]) {
      CompleteInSkillOk(skills[i], skillId, stageId, lessonId);
    }
  }

  // ---------------------------------------------------------------------------
  // passQuiz

  /** `stages.findIndex(s => s.id === stageId)` */
  function FindStageIndex(stages: seq<Stage>, stageId: string): (r: int)
    ensures -1 <= r < |stages|
    ensures r == -1 <==> forall j :: 0 <= j < |stages| ==> stages[j].id != stageId
    ensures r >= 0 ==> stages[r].id == stageId && forall j :: 0 <= j < r ==> stages[j].id != stageId
  {
    Lookup.FindIndex(stages, (st: Stage) => st.id == stageId)
  }

  function MarkPassed(st: Stage): Stage {
    st.(isCompleted := true, quizPassed := true, progress := 100.0)
  }

  function Unlock(st: Stage): Stage {
    st.(isLocked := false)
  }

  /** The stage list after the quiz of stage `i` is passed: slot `i` is forced
      to completed, and slot `i + 1`, if there is one, is unlocked. */
  function PassedStages(stages: seq<Stage>, i: nat): seq<Stage>
    requires i < |stages|
  {
    var marked := stages[i := MarkPassed(stages[i])];
    if i < |stages| - 1 then marked[i + 1 := Unlock(marked[i + 1])] else marked
  }

  function PassQuizInSkill(sk: Skill, skillId: string, stageId: string): Skill {
    if sk.id != skillId then sk
    else
      var i := FindStageIndex(sk.stages, stageId);
      if i == -1 then sk
      else
        var stages := PassedStages(sk.stages, i);
        sk.(stages := stages, progress := SkillProgress(stages))
  }

  /** The tree `passQuiz(skillId, stageId)` computes. */
  function PassQuizIn(skills: seq<Skill>, skillId: string, stageId: string): seq<Skill> {
    seq(|skills|, i requires 0 <= i < |skills| => PassQuizInSkill(skills[i], skillId, stageId))
  }

  /** What `passQuiz` does to one skill: unmatched skills and skills without the
      stage are returned unchanged; otherwise the first stage with the id is
      completed, quiz-passed and at 100, exactly the next stage is unlocked, no
      lesson changes, and the skill's progress is the mean of its stages. */
  lemma PassQuizInSkillEffect(sk: Skill, skillId: string, stageId: string)
    ensures var r := PassQuizInSkill(sk, skillId, stageId);
      var i := FindStageIndex(sk.stages, stageId);
      && (sk.id != skillId || i == -1 ==> r == sk)
      && (sk.id == skillId && i != -1 ==>
        && r == sk.(stages := r.stages, progress := r.progress)
        && |r.stages| == |sk.stages|
        && r.stages[i] == sk.stages[i].(isCompleted := true, quizPassed := true, progress := 100.0)
        && (i + 1 < |sk.stages| ==> r.stages[i + 1] == sk.stages[i + 1].(isLocked := false))
        && (forall j :: 0 <= j < |sk.stages| && j != i && j != i + 1 ==> r.stages[j] == sk.stages[j])
        && (forall j :: 0 <= j < |sk.stages| ==> r.stages[j].lessons == sk.stages[j].lessons)
        && (forall j :: 0 <= j < |sk.stages| ==> (r.stages[j].isLocked <==> sk.stages[j].isLocked && j != i + 1))
        && r.progress == Progress.Sum(StageProgresses(r.stages)) / |r.stages| as real)
  {
  }

  /** Passing stage `i` keeps every stage consistent and every unlock
      justified. */
  lemma PassedStagesOk(stages: seq<Stage>, i: nat)
    requires i < |stages|
    requires forall j :: 0 <= j < |stages| ==> StageOk(stages[j])
    requires UnlockJustified(stages)
    ensures forall j :: 0 <= j < |stages| ==> StageOk(PassedStages(stages, i)[j])
    ensures UnlockJustified(PassedStages(stages, i))
  {
    var r := PassedStages(stages, i);
    assert |r| == |stages|;
    forall j | 0 <= j < |r| ensures StageOk(r[j]) {
      assert StageOk(stages[j]);
      assert r[j] == stages[j] || r[j] == MarkPassed(stages[j]) || r[j] == Unlock(stages[j]);
    }
    forall j | 0 <= j < |r|
      ensures r[j].isLocked == (stages[j].isLocked && j != i + 1)
      ensures r[j].quizPassed == (stages[j].quizPassed || j == i)
    {
    }
  }

  lemma PassQuizInSkillOk(sk: Skill, skillId: string, stageId: string)
    requires SkillOk(sk)
    ensures SkillOk(PassQuizInSkill(sk, skillId, stageId))
  {
    var i := FindStageIndex(sk.stages, stageId);
    if sk.id == skillId && i != -1 {
      PassedStagesOk(sk.stages, i);
    }
  }

  /** `passQuiz` keeps every skill well formed: in particular a stage only
      becomes unlocked right after a stage whose quiz is passed. */
  lemma PassQuizPreservesWellFormed(skills: seq<Skill>, skillId: string, stageId: string)
    requires WellFormed(skills)
    ensures WellFormed(PassQuizIn(skills, skillId, stageId))
  {
    var r := PassQuizIn(skills, skillId, stageId);
    forall i | 0 <= i < |r| ensures SkillOk(r[i]) {
      PassQuizInSkillOk(skills[i], skillId, stageId);
    }
  }

  /** `completeLesson` after `passQuiz` recomputes the stage from its lessons,
      so the forced 100 is lost when a lesson is still open. */
  lemma CompleteAfterPassDropsProgress()
    ensures var lesson1 := Lesson("l1", "", Video, "English", "", false);
      var lesson2 := Lesson("l2", "", Article, "English", "", false);
      var st := Stage("s", 1, "", "", [lesson1, lesson2], Quiz("q", []), false, false, false, 0.0);
      var sk := Skill("k", "K", "", Beginner, [st], 0.0, "");
      var passed := PassQuizIn([sk], "k", "s");
      && passed[0].stages[0].progress == 100.0
      && CanComplete(passed, "k", "s")
      && var after := CompleteLessonIn(passed, "k", "s", "l1");
         after[0].stages[0].progress == 50.0 && after[0].stages[0].quizPassed && after[0].progress == 50.0
  {
    var lesson1 := Lesson("l1", "", Video, "English", "", false);
    var lesson2 := Lesson("l2", "", Article, "English", "", false);
    var st := Stage("s", 1, "", "", [lesson1, lesson2], Quiz("q", []), false, false, false, 0.0);
    var sk := Skill("k", "K", "", Beginner, [st], 0.0, "");
    var passed := PassQuizIn([sk], "k", "s");
    assert FindStageIndex(sk.stages, "s") == 0;
    assert passed[0].stages == [MarkPassed(st)];
    var after := CompleteLessonIn(passed, "k", "s", "l1");
    var lessons := MarkCompleted([lesson1, lesson2], "l1");
    assert lessons == [lesson1.(completed := true), lesson2];
    assert CompletedCount(lessons) == 1;
    assert after[0].stages[0].progress == 50.0;
    assert StageProgresses(after[0].stages) == [50.0];
    assert Progress.Sum([50.0]) == 50.0 by { assert [50.0][..0] == []; }
  }

  /** Two lessons in one stage: completing them one by one gives 50 then 100,
      for the stage and for the skill. */
  lemma TwoLessonScenario()
    ensures var lesson1 := Lesson("l1", "", Video, "English", "", false);
      var lesson2 := Lesson("l2", "", Article, "English", "", false);
      var st := Stage("s", 1, "", "", [lesson1, lesson2], Quiz("q", []), false, false, false, 0.0);
      var first := CompleteLessonIn([Skill("k", "K", "", Beginner, [st], 0.0, "")], "k", "s", "l1");
      && first[0].stages[0].progress == 50.0 && first[0].progress == 50.0
      && CanComplete(first, "k", "s")
      && var second := CompleteLessonIn(first, "k", "s", "l2");
         second[0].stages[0].progress == 100.0 && second[0].progress == 100.0
  {
    var lesson1 := Lesson("l1", "", Video, "English", "", false);
    var lesson2 := Lesson("l2", "", Article, "English", "", false);
    var st := Stage("s", 1, "", "", [lesson1, lesson2], Quiz("q", []), false, false, false, 0.0);
    var sk := Skill("k", "K", "", Beginner, [st], 0.0, "");
    SingleStageStep(sk, st, "l1", [lesson1.(completed := true), lesson2], 50.0);
    var first := CompleteLessonIn([sk], "k", "s", "l1");
    var st1 := first[0].stages[0];
    SingleStageStep(first[0], st1, "l2", [lesson1.(completed := true), lesson2.(completed := true)], 100.0);
  }

  /** Completing a lesson in a one-stage skill: the stage's progress is its
      lesson ratio, and so is the skill's. */
  lemma SingleStageStep(sk: Skill, st: Stage, lessonId: string, done: seq<Lesson>, expected: real)
    requires sk.stages == [st] && |st.lessons| > 0
    requires MarkCompleted(st.lessons, lessonId) == done
    requires LessonRatio(done) == expected
    ensures var after := CompleteLessonIn([sk], sk.id, st.id, lessonId);
      && after[0].stages[0].progress == expected && after[0].progress == expected
      && after[0].stages[0].lessons == done
      && after[0].id == sk.id && after[0].stages[0].id == st.id && after[0].stages == [after[0].stages[0]]
  {
    var after := CompleteLessonIn([sk], sk.id, st.id, lessonId);
    assert StageProgresses(after[0].stages) == [expected];
    assert Progress.Sum([expected]) == expected by { assert [expected][..0] == []; }
  }

  /** Two stages, the second locked: passing the first stage's quiz completes
      it at 100 and unlocks the second without changing its progress. */
  lemma PassFirstOfTwoScenario(st1: Stage, st2: Stage, sk: Skill)
    requires st1.id == "s1" && st2.id == "s2" && st2.isLocked
    requires sk.id == "k" && sk.stages == [st1, st2]
    ensures var r := PassQuizIn([sk], "k", "s1")[0];
      && r.stages[0] == st1.(isCompleted := true, quizPassed := true, progress := 100.0)
      && r.stages[1] == st2.(isLocked := false)
      && r.stages[1].progress == st2.progress
  {
    assert FindStageIndex(sk.stages, "s1") == 0;
  }

  // ---------------------------------------------------------------------------
  // generateRoadmap: keep the catalog skills whose lower-cased name was asked
  // for, in catalog order, with the requested level

  /** One catalog skill, kept with the requested level or dropped. */
  function Keep(c: Skill, names: seq<string>, level: Level): seq<Skill> {
    if Lower(c.name) in names then [c.(level := level)] else []
  }

  function FilterCatalog(catalog: seq<Skill>, names: seq<string>, level: Level): seq<Skill> {
    if |catalog| == 0 then []
    else Keep(catalog[0], names, level) + FilterCatalog(catalog[1..], names, level)
  }

  lemma {:induction false} FilterCatalogAppend(a: seq<Skill>, b: seq<Skill>, names: seq<string>, level: Level)
    ensures FilterCatalog(a + b, names, level) == FilterCatalog(a, names, level) + FilterCatalog(b, names, level)
  {
    if |a| == 0 {
      assert a + b == b;
    } else {
      var ab := a + b;
      assert ab[0] == a[0] && ab[1..] == a[1..] + b;
      FilterCatalogAppend(a[1..], b, names, level);
      var k, fa, fb := Keep(a[0], names, level), FilterCatalog(a[1..], names, level), FilterCatalog(b, names, level);
      calc {
        FilterCatalog(ab, names, level);
        k + FilterCatalog(ab[1..], names, level);
        k + (fa + fb);
        (k + fa) + fb;
      }
    }
  }

  lemma FilterCatalogSingle(c: Skill, names: seq<string>, level: Level)
    ensures FilterCatalog([c], names, level) == if Lower(c.name) in names then [c.(level := level)] else []
  {
    assert [c][1..] == [];
  }

  /** A skill is kept exactly when its lower-cased name was requested, and it
      comes back with the requested level and nothing else changed. */
  lemma {:induction false} FilterCatalogMembers(catalog: seq<Skill>, names: seq<string>, level: Level)
    ensures var r := FilterCatalog(catalog, names, level);
      && |r| <= |catalog|
      && (forall s :: s in r <==> exists c :: c in catalog && Lower(c.name) in names && s == c.(level := level))
  {
    if |catalog| > 0 {
      FilterCatalogMembers(catalog[1..], names, level);
      var r := FilterCatalog(catalog, names, level);
      forall s ensures s in r <==> exists c :: c in catalog && Lower(c.name) in names && s == c.(level := level) {
        if s in r && s !in FilterCatalog(catalog[1..], names, level) {
          assert Lower(catalog[0].name) in names && s == catalog[0].(level := level);
        }
        if exists c :: c in catalog && Lower(c.name) in names && s == c.(level := level) {
          var c :| c in catalog && Lower(c.name) in names && s == c.(level := level);
          if c != catalog[0] {
            assert c in catalog[1..];
          }
        }
      }
    }
  }

  lemma WellFormedConcat(a: seq<Skill>, b: seq<Skill>)
    requires WellFormed(a) && WellFormed(b)
    ensures WellFormed(a + b)
  {
    forall i | 0 <= i < |a + b| ensures SkillOk((a + b)[i]) {
      if i < |a| {
        assert (a + b)[i] == a[i];
      } else {
        assert (a + b)[i] == b[i - |a|];
      }
    }
  }

  lemma {:induction false} FilterCatalogPreservesWellFormed(catalog: seq<Skill>, names: seq<string>, level: Level)
    requires WellFormed(catalog)
    ensures WellFormed(FilterCatalog(catalog, names, level))
  {
    if |catalog| > 0 {
      assert WellFormed(catalog[1..]) by {
        forall i | 0 <= i < |catalog[1..]| ensures SkillOk(catalog[1..][i]) {
          assert catalog[1..][i] == catalog[i + 1];
        }
      }
      FilterCatalogPreservesWellFormed(catalog[1..], names, level);
      assert SkillOk(catalog[0]);
      var head := Keep(catalog[0], names, level);
      assert WellFormed(head);
      WellFormedConcat(head, FilterCatalog(catalog[1..], names, level));
    }
  }

  // ---------------------------------------------------------------------------
  // The provider's state

  class LearningStore {
    var careerGoal: string
    var skills: seq<Skill>
    var selectedSkills: seq<string>
    var level: Level
    var preferredLanguage: string
    var learningStreak: int
    var loading: bool

    ghost predicate Valid()
      reads this
    {
      WellFormed(skills)
    }

    /** The provider's initial `useState` values. */
    constructor ()
      ensures Valid()
      ensures careerGoal == "" && skills == [] && selectedSkills == [] && level == Beginner
      ensures preferredLanguage == "English" && learningStreak == 0 && !loading
    {
      careerGoal := "";
      skills := [];
      selectedSkills := [];
      level := Beginner;
      preferredLanguage := "English";
      learningStreak := 0;
      loading := false;
    }

    /** `completeLesson`: the tree is rebuilt and the streak goes up by one on
        every call, matched or not. */
    method CompleteLesson(skillId: string, stageId: string, lessonId: string)
      requires Valid()
      modifies this
      ensures Valid()
      ensures CanComplete(old(skills), skillId, stageId)
      ensures skills == CompleteLessonIn(old(skills), skillId, stageId, lessonId)
      ensures learningStreak == old(learningStreak) + 1
      ensures careerGoal == old(careerGoal) && selectedSkills == old(selectedSkills) && level == old(level)
      ensures preferredLanguage == old(preferredLanguage) && loading == old(loading)
    {
      CompleteLessonPreservesWellFormed(skills, skillId, stageId, lessonId);
      skills := CompleteLessonIn(skills, skillId, stageId, lessonId);
      learningStreak := learningStreak + 1;
    }

    /** `passQuiz`: every skill with the id gets its stage list copied, the two
        slots overwritten in place and its progress recomputed; the streak is
        not touched. */
    method PassQuiz(skillId: string, stageId: string)
      requires Valid()
      modifies this
      ensures Valid()
      ensures skills == PassQuizIn(old(skills), skillId, stageId)
      ensures learningStreak == old(learningStreak)
      ensures careerGoal == old(careerGoal) && selectedSkills == old(selectedSkills) && level == old(level)
      ensures preferredLanguage == old(preferredLanguage) && loading == old(loading)
    {
      PassQuizPreservesWellFormed(skills, skillId, stageId);
      var updated: seq<Skill> := [];
      var i := 0;
      while i < |skills|
        modifies {}
        invariant 0 <= i <= |skills|
        invariant |updated| == i
        invariant forall k :: 0 <= k < i ==> updated[k] == PassQuizInSkill(skills[k], skillId, stageId)
      {
        var next := PassQuizOnSkill(skills[i], skillId, stageId);
        updated := updated + [next];
        i := i + 1;
      }
      assert updated == PassQuizIn(skills, skillId, stageId);
      skills := updated;
    }

    /** `generateRoadmap` up to its first `await`: the loading flag is raised
        and the goal, the selected skills, the level and the language are set. */
    method StartGenerate(goal: string, names: seq<string>, lvl: Level, language: string)
      modifies this
      ensures loading
      ensures careerGoal == goal && selectedSkills == names && level == lvl && preferredLanguage == language
      ensures skills == old(skills) && learningStreak == old(learningStreak)
    {
      loading := true;
      careerGoal := goal;
      selectedSkills := names;
      level := lvl;
      preferredLanguage := language;
    }

    /** The rest of `generateRoadmap`, given what the catalog fetch produced:
        on success the filtered catalog replaces the tree and the streak
        restarts at 1; on failure the tree and the streak stay; in both cases
        the loading flag ends false. */
    method FinishGenerate(names: seq<string>, lvl: Level, fetched: Result<seq<Skill>, string>)
      returns (ok: bool)
      requires Valid()
      requires fetched.Success? ==> WellFormed(fetched.value)
      modifies this
      ensures Valid()
      ensures ok <==> fetched.Success?
      ensures !loading
      ensures fetched.Success? ==> skills == FilterCatalog(fetched.value, names, lvl) && learningStreak == 1
      ensures fetched.Failure? ==> skills == old(skills) && learningStreak == old(learningStreak)
      ensures careerGoal == old(careerGoal) && selectedSkills == old(selectedSkills) && level == old(level)
      ensures preferredLanguage == old(preferredLanguage)
    {
      match fetched {
        case Success(catalog) =>
          FilterCatalogPreservesWellFormed(catalog, names, lvl);
          skills := FilterCatalog(catalog, names, lvl);
          learningStreak := 1;
          ok := true;
        case Failure(_) =>
          ok := false;
      }
      loading := false;
    }

    /** `generateRoadmap` as one call. */
    method GenerateRoadmap(goal: string, names: seq<string>, lvl: Level, language: string,
                           fetched: Result<seq<Skill>, string>)
      returns (ok: bool)
      requires Valid()
      requires fetched.Success? ==> WellFormed(fetched.value)
      modifies this
      ensures Valid()
      ensures ok <==> fetched.Success?
      ensures !loading
      ensures careerGoal == goal && selectedSkills == names && level == lvl && preferredLanguage == language
      ensures fetched.Success? ==> skills == FilterCatalog(fetched.value, names, lvl) && learningStreak == 1
      ensures fetched.Failure? ==> skills == old(skills) && learningStreak == old(learningStreak)
    {
      StartGenerate(goal, names, lvl, language);
      ok := FinishGenerate(names, lvl, fetched);
    }

    method SetCareerGoal(goal: string)
      modifies this
      ensures careerGoal == goal
      ensures skills == old(skills) && selectedSkills == old(selectedSkills) && level == old(level)
      ensures preferredLanguage == old(preferredLanguage) && learningStreak == old(learningStreak) && loading == old(loading)
    {
      careerGoal := goal;
    }

    method SetSelectedSkills(names: seq<string>)
      modifies this
      ensures selectedSkills == names
      ensures skills == old(skills) && careerGoal == old(careerGoal) && level == old(level)
      ensures preferredLanguage == old(preferredLanguage) && learningStreak == old(learningStreak) && loading == old(loading)
    {
      selectedSkills := names;
    }

    method SetLevel(lvl: Level)
      modifies this
      ensures level == lvl
      ensures skills == old(skills) && careerGoal == old(careerGoal) && selectedSkills == old(selectedSkills)
      ensures preferredLanguage == old(preferredLanguage) && learningStreak == old(learningStreak) && loading == old(loading)
    {
      level := lvl;
    }

    method SetPreferredLanguage(language: string)
      modifies this
      ensures preferredLanguage == language
      ensures skills == old(skills) && careerGoal == old(careerGoal) && selectedSkills == old(selectedSkills)
      ensures level == old(level) && learningStreak == old(learningStreak) && loading == old(loading)
    {
      preferredLanguage := language;
    }
  }

  /** One skill of `passQuiz`: a matched skill with the stage gets a copy of
      its stage array, changed in place, and its progress recomputed. */
  method PassQuizOnSkill(sk: Skill, skillId: string, stageId: string) returns (next: Skill)
    ensures next == PassQuizInSkill(sk, skillId, stageId)
  {
    next := sk;
    if sk.id == skillId {
      var idx := FindStageIndex(sk.stages, stageId);
      if idx != -1 {
        var a := new Stage[|sk.stages|](j requires 0 <= j < |sk.stages| => sk.stages[j]);
        assert a[..] == sk.stages;
        PassStageInPlace(a, idx);
        next := sk.(stages := a[..], progress := SkillProgress(a[..]));
      }
    }
  }

  /** The in-place part of `passQuiz` on the copied stage array. */
  method PassStageInPlace(a: array<Stage>, i: nat)
    requires i < a.Length
    modifies a
    ensures a[..] == PassedStages(old(a[..]), i)
  {
    a[i] := MarkPassed(a[i]);
    if i < a.Length - 1 {
      a[i + 1] := Unlock(a[i + 1]);
    }
  }
}
