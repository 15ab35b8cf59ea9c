/** The profile page: the mastered and active skill lists, the quizzes-passed
    count, the avatar initials, the resume export selection and the skill
    labels (src/pages/Profile.tsx). */
module Profile {
  import opened Learning
  import opened Wrappers
  import Catalog
  import Auth

  // ---------------------------------------------------------------------------
  // Mastered and active skills

  /** `skills.filter(skill => skill.progress === 100)` */
  function Mastered(skills: seq<Skill>): (r: seq<Skill>)
    ensures |r| <= |skills|
    ensures forall s :: s in r <==> s in skills && s.progress == 100.0
  {
    if |skills| == 0 then []
    else (if skills[0].progress == 100.0 then [skills[0]] else []) + Mastered(skills[1..])
  }

  /** `skills.filter(skill => skill.progress > 0 && skill.progress < 100)` */
  function Active(skills: seq<Skill>): (r: seq<Skill>)
    ensures |r| <= |skills|
    ensures forall s :: s in r <==> s in skills && 0.0 < s.progress < 100.0
  {
    if |skills| == 0 then []
    else (if 0.0 < skills[0].progress < 100.0 then [skills[0]] else []) + Active(skills[1..])
  }

  /** No skill is both mastered and active, and a skill at 0 is neither. */
  lemma MasteredActiveDisjoint(skills: seq<Skill>)
    ensures forall s :: s in Mastered(skills) ==> s !in Active(skills)
    ensures forall s :: s in skills && s.progress == 0.0 ==> s !in Mastered(skills) && s !in Active(skills)
  {
  }

  /** Between them the two lists never hold more entries than there are skills,
      and in a tree the engine produces every skill is mastered, active or
      not started. */
  lemma {:induction false} MasteredActiveCount(skills: seq<Skill>)
    ensures |Mastered(skills)| + |Active(skills)| <= |skills|
    ensures WellFormed(skills) ==> forall s :: s in skills ==>
      s in Mastered(skills) || s in Active(skills) || s.progress == 0.0
  {
    if |skills| > 0 {
      MasteredActiveCount(skills[1..]);
    }
    if WellFormed(skills) {
      forall s | s in skills
        ensures s in Mastered(skills) || s in Active(skills) || s.progress == 0.0
      {
        var i :| 0 <= i < |skills| && skills[i] == s;
        SkillProgressBounded(skills[i]);
      }
    }
  }

  // ---------------------------------------------------------------------------
  // Quizzes passed

  /** `stages.filter(p).length` */
  function CountStages(stages: seq<Stage>, p: Stage -> bool): (n: nat)
    ensures n <= |stages|
    ensures n == 0 <==> forall j :: 0 <= j < |stages| ==> !p(stages[j])
    ensures n == |stages| <==> forall j :: 0 <= j < |stages| ==> p(stages[j])
  {
    if |stages| == 0 then 0
    else (if p(stages[0]) then 1 else 0) + CountStages(stages[1..], p)
  }

  /** `skills.reduce((acc, skill) => acc + skill.stages.filter(p).length, 0)` */
  function CountAll(skills: seq<Skill>, p: Stage -> bool): nat {
    if |skills| == 0 then 0
    else CountAll(skills[..|skills| - 1], p) + CountStages(skills[|skills| - 1].stages, p)
  }

  function TotalStages(skills: seq<Skill>): nat {
    if |skills| == 0 then 0
    else TotalStages(skills[..|skills| - 1]) + |skills[|skills| - 1].stages|
  }

  function QuizzesPassed(skills: seq<Skill>): nat {
    CountAll(skills, (st: Stage) => st.quizPassed)
  }

  /** Counting with two tests that agree on every stage gives the same total. */
  lemma {:induction false} CountAllAgree(skills: seq<Skill>, p: Stage -> bool, q: Stage -> bool)
    requires forall i, j :: 0 <= i < |skills| && 0 <= j < |skills[i].stages| ==>
      p(skills[i].stages[j]) == q(skills[i].stages[j])
    ensures CountAll(skills, p) == CountAll(skills, q)
  {
    if |skills| > 0 {
      var k := |skills| - 1;
      CountAllAgree(skills[..k], p, q);
      CountStagesAgree(skills[k].stages, p, q);
    }
  }

  lemma {:induction false} CountStagesAgree(stages: seq<Stage>, p: Stage -> bool, q: Stage -> bool)
    requires forall j :: 0 <= j < |stages| ==> p(stages[j]) == q(stages[j])
    ensures CountStages(stages, p) == CountStages(stages, q)
  {
    if |stages| > 0 {
      CountStagesAgree(stages[1..], p, q);
    }
  }

  /** The count is at most the number of stages, and 0 exactly when no quiz of
      any skill is passed. */
  lemma {:induction false} QuizzesPassedBounded(skills: seq<Skill>)
    ensures QuizzesPassed(skills) <= TotalStages(skills)
    ensures QuizzesPassed(skills) == 0 <==>
      forall i, j :: 0 <= i < |skills| && 0 <= j < |skills[i].stages| ==> !skills[i].stages[j].quizPassed
  {
    if |skills| > 0 {
      var k := |skills| - 1;
      QuizzesPassedBounded(skills[..k]);
      assert forall i :: 0 <= i < k ==> skills[..k][i] == skills[i];
    }
  }

  /** A freshly fetched roadmap has no quiz passed. */
  lemma InitialNoQuizzesPassed(skills: seq<Skill>)
    requires forall i :: 0 <= i < |skills| ==> Catalog.InitialSkill(skills[i])
    ensures QuizzesPassed(skills) == 0
  {
    forall i, j | 0 <= i < |skills| && 0 <= j < |skills[i].stages|
      ensures !skills[i].stages[j].quizPassed
    {
      assert Catalog.InitialSkill(skills[i]);
      assert Catalog.InitialStage(skills[i].stages[j], j);
    }
    QuizzesPassedBounded(skills);
  }

  /** In a tree the engine produces, the count of passed quizzes is the count
      of completed stages. */
  lemma QuizzesPassedCountsCompleted(skills: seq<Skill>)
    requires WellFormed(skills)
    ensures QuizzesPassed(skills) == CountAll(skills, (st: Stage) => st.isCompleted)
  {
    forall i, j | 0 <= i < |skills| && 0 <= j < |skills[i].stages|
      ensures skills[i].stages[j].quizPassed == skills[i].stages[j].isCompleted
    {
      assert SkillOk(skills[i]);
      assert StageOk(skills[i].stages[j]);
    }
    CountAllAgree(skills, (st: Stage) => st.quizPassed, (st: Stage) => st.isCompleted);
  }

  // ---------------------------------------------------------------------------
  // Initials, export and labels

  /** `s.charAt(0)`: the empty string for an empty string. */
  function FirstChar(s: string): string
  {
    if |s| == 0 then "" else [s[0]]
  }

  /** `getInitials`: `U` without a user, else the first characters of the two
      names, each possibly missing. */
  function Initials(user: Option<Auth.User>): string
  {
    match user
    case None => "U"
    case Some(u) => FirstChar(u.firstName) + FirstChar(u.lastName)
  }

  /** Without a user the initials are `U`. With a signed-in user they have at
      most two characters, exactly the first letters of the names when both
      are non-empty, and are empty when both names are. */
  lemma InitialsShape(u: Auth.User)
    ensures Initials(None) == "U"
    ensures |Initials(Some(u))| <= 2
    ensures |u.firstName| > 0 && |u.lastName| > 0 ==> Initials(Some(u)) == [u.firstName[0], u.lastName[0]]
    ensures |u.firstName| == 0 && |u.lastName| == 0 ==> Initials(Some(u)) == ""
  {
  }

  /** A user signed in with an email that starts with `@` has initials `U`
      only from the last name `User`: the first name is empty. */
  lemma LoginInitials(email: string)
    requires |email| > 0 && email[0] == '@'
    ensures Initials(Some(Auth.LoginUser(email))) == "U"
  {
    Auth.LoginUserName(email);
    assert email[..1] == "@";
  }

  datatype ProjectStatus = Complete | InReview

  datatype Project = Project(id: string, title: string, status: ProjectStatus, grade: Option<int>)

  const MockProjects: seq<Project> := [
    Project("1", "React Todo App", Complete, Some(98)),
    Project("2", "Python Data Analysis", InReview, None),
    Project("3", "JavaScript Game", Complete, Some(85))
  ]

  /** `projects.filter(p => p.status === 'Complete')` */
  function CompleteProjects(ps: seq<Project>): (r: seq<Project>)
    ensures |r| <= |ps|
    ensures forall p :: p in r <==> p in ps && p.status == Complete
  {
    if |ps| == 0 then []
    else (if ps[0].status == Complete then [ps[0]] else []) + CompleteProjects(ps[1..])
  }

  /** What the resume generator is given. */
  datatype ResumeInput = ResumeInput(user: Option<Auth.User>, skills: seq<Skill>, projects: seq<Project>)

  function ExportInput(user: Option<Auth.User>, skills: seq<Skill>): ResumeInput {
    ResumeInput(user, Mastered(skills), CompleteProjects(MockProjects))
  }

  /** The export carries only mastered skills, all of them, and the two
      completed projects in order. */
  lemma ExportSelection(user: Option<Auth.User>, skills: seq<Skill>)
    ensures forall s :: s in ExportInput(user, skills).skills <==> s in skills && s.progress == 100.0
    ensures ExportInput(user, skills).projects == [MockProjects[0], MockProjects[2]]
    ensures ExportInput(user, skills).user == user
  {
    assert MockProjects[1..][1..][1..] == [];
  }

  /** The label next to each skill. */
  function SkillLabel(s: Skill): (r: string)
    ensures r == "Completed" || r == "In Progress"
  {
    if s.progress == 100.0 then "Completed" else "In Progress"
  }

  /** A listed skill is labelled Completed exactly when it is mastered. */
  lemma LabelIffMastered(skills: seq<Skill>, s: Skill)
    requires s in skills
    ensures SkillLabel(s) == "Completed" <==> s in Mastered(skills)
  {
    assert "In Progress" != "Completed" by {
      assert "In Progress"[0] != "Completed"[0];
    }
  }
}
