# learning-path-forge in Dafny

This project models the core of learning-path-forge, a single-page e-learning
application. A learner picks a career goal and up to three skills. The app
builds a roadmap of skills, each made of stages, each holding lessons and a
quiz. Completing lessons and passing quizzes moves progress forward and unlocks
the next stage. Around that engine sit:

- the quiz component;
- the lesson, roadmap, path-selection, dashboard and profile pages;
- the mock session provider and its sign-in and sign-up forms;
- the edit-profile dialog;
- the learning-assistant chat widget.

## Modules

| file | module | models |
|---|---|---|
| `wrappers.dfy` | `Wrappers` | `Option` and `Result` |
| `lookup.dfy` | `Lookup` | `Array.prototype.findIndex` and `find` |
| `text.dfy` | `Text` | `toLowerCase` (ASCII), `includes`, `trim` emptiness, `split(c)[0]` |
| `progress.dfy` | `Progress` | exact sums, means and percentages |
| `learning.dfy` | `Learning` | the Skill/Stage/Lesson tree, `completeLesson`, `passQuiz`, `generateRoadmap` and the provider state (`class LearningStore`) |
| `catalog.dfy` | `Catalog` | the fixture `fetchRoadmap` returns and `availableSkills` |
| `quiz.dfy` | `QuizFlow` | scoring and the quiz component's state machine (`class QuizSession`) |
| `lesson.dfy` | `LessonPage` | route resolution, the two handlers, the next-lesson link and the display conditions |
| `roadmap_page.dfy` | `RoadmapPage` | the skill shown, the badges, the lesson actions, the quiz panels and the congratulation |
| `selectpath.dfy` | `SelectPath` | the skill search, the selection toggle and `handleContinue` (`class SelectPathForm`) |
| `dashboard.dfy` | `Dashboard` | overall progress |
| `profile.dfy` | `Profile` | mastered and active skills, quizzes passed, initials, export selection, labels |
| `progressbar.dfy` | `ProgressBar` | the clamp and the label |
| `auth.dfy` | `Auth` | the session provider (`class AuthSession`) |
| `auth_forms.dfy` | `AuthForms` | the two validation schemas and the submissions |
| `edit_profile.dfy` | `EditProfile` | the dialog's form (`class EditProfileForm`) |
| `chat.dfy` | `Chat` | reply selection and the history (`class ChatWidget`) |

## How the program is represented

- **Values and state.** Entities the program treats as values become
  datatypes. State the components update in place becomes class fields:
  - the learning provider, as `Learning.LearningStore`;
  - the quiz, as `QuizFlow.QuizSession`;
  - the session, as `Auth.AuthSession`;
  - the forms, as `SelectPath.SelectPathForm` and
    `EditProfile.EditProfileForm`;
  - the chat, as `Chat.ChatWidget`.
- **The two tree mutations.** The tree that `completeLesson` rebuilds is a
  function, `Learning.CompleteLessonIn`. For `passQuiz`, the program copies
  the stage list and overwrites two slots. The model copies it into an
  `array` and changes `Learning.PassStageInPlace` in place.
- **Arithmetic.** Progress values and scores are exact reals.
- **Missing values.** A JavaScript `undefined` or `null` is an `Option`.
- **Invariant.** Three properties hold for every tree the engine produces.
  `Learning.WellFormed` collects them:
  - every stage has lessons;
  - progress values are percentages;
  - `isCompleted` equals `quizPassed`, and a later stage is unlocked only
    after its predecessor's quiz.

  The catalog satisfies it (`Catalog.RoadmapWellFormed`). Both mutations and
  the roadmap filter preserve it.

## Behaviours of the code worth knowing

- **Completion is not terminal.** `completeLesson` recomputes a stage's
  progress from its lessons even after the stage's quiz was passed. A stage
  passed at 100 with an open lesson drops to its lesson ratio, and
  `quizPassed` stays true. `Learning.CompleteAfterPassDropsProgress` shows
  the drop.
- **Stages without lessons.** Stage progress divides by the lesson count, so
  a stage without lessons gets `NaN`. The model requires the lists it divides
  by to be non-empty. Every tree the engine produces meets that requirement.
- **Lengths are UTF-16 code units.** The password check at sign-in and the
  form minimums compare `.length`, which counts a character outside the
  Basic Multilingual Plane twice. The model counts the same way
  (`Text.Utf16Length`).

## Model

| member | source | states |
|---|---|---|
| `Lookup.FindIndex` | src/pages/Lesson.tsx:84 | -1 exactly when no element satisfies the test; otherwise the first index that does |
| `Lookup.Find` | src/pages/Lesson.tsx:24 | none exactly when no element satisfies the test; otherwise the first element that does |
| `Text.Lower` | src/pages/SelectPath.tsx:21 | same length, no upper-case ASCII letter left, every upper-case letter shifted by 32, everything else kept |
| `Text.LowerIdempotent` | src/pages/SelectPath.tsx:21 | lower-casing twice is lower-casing once |
| `Text.ContainsAt` | src/pages/SelectPath.tsx:21 | `includes` holds exactly when the substring occurs at some index |
| `Text.BlankIffAllSpace` | src/pages/SelectPath.tsx:37 | `!s.trim()` exactly when every character is JavaScript white space |
| `Text.Utf16Length` | src/context/AuthContext.tsx:59 | `.length` counts at least one and at most two code units per character |
| `Text.Utf16LengthBmp` | src/context/AuthContext.tsx:59 | within the Basic Multilingual Plane `.length` is the number of characters |
| `Text.ThreeFacesLength` | src/context/AuthContext.tsx:59 | three characters outside the Basic Multilingual Plane make six code units |
| `Text.BeforeFirst` | src/context/AuthContext.tsx:66 | a prefix of the string without the separator, ending just before its first occurrence |
| `Progress.MeanBounds` | src/context/LearningContext.tsx:193-194 | the mean of percentages is a percentage |
| `Progress.SumPermutation` | src/pages/Dashboard.tsx:16 | the `reduce` sum does not depend on the order of the values |
| `Progress.PercentBounds` | src/components/Quiz.tsx:60 | a count out of a positive total is in [0,100], 100 iff the count is the total, 0 iff it is 0 |
| `Progress.PercentAtLeast` | src/components/Quiz.tsx:61 | a percentage reaches a threshold exactly when 100·count ≥ threshold·total |
| `Learning.CompletedCount` | src/context/LearningContext.tsx:179 | at most the number of lessons; 0 iff none completed; the total iff all completed |
| `Learning.LessonRatio` | src/context/LearningContext.tsx:179-181 | a percentage; 100 iff every lesson is completed; 0 iff none is |
| `Learning.SkillProgressBounded` | src/context/LearningContext.tsx:193-194 | a consistent skill's progress lies in [0,100] |
| `Learning.CompleteLessonMarks` | src/context/LearningContext.tsx:168-187 | only lessons with the id, in stages with the id, of skills with the id, become completed; no lesson is un-marked and none changes otherwise |
| `Learning.CompleteLessonFrame` | src/context/LearningContext.tsx:170-200 | unmatched skills and unmatched stages are returned unchanged |
| `Learning.CompleteLessonRollUp` | src/context/LearningContext.tsx:179-196 | the matched stage's progress is (#completed / #lessons)·100 in [0,100] and its flags are untouched; the matched skill's progress is the sum of its stage progresses over their count |
| `Learning.CompleteLessonIdempotent` | src/context/LearningContext.tsx:168-200 | a second `completeLesson` with the same ids gives the same tree |
| `Learning.CompleteLessonPreservesWellFormed` | src/context/LearningContext.tsx:168-200 | `completeLesson` keeps the tree invariant |
| `Learning.FindStageIndex` | src/context/LearningContext.tsx:212-214 | -1 iff no stage has the id; otherwise the first stage with it |
| `Learning.PassQuizInSkillEffect` | src/context/LearningContext.tsx:208-244 | unmatched skill or missing stage: unchanged; otherwise stage i completed, quiz-passed, at 100; exactly stage i+1 unlocked; no lesson changes; skill progress is the stage mean |
| `Learning.PassQuizPreservesWellFormed` | src/context/LearningContext.tsx:208-244 | `passQuiz` keeps the tree invariant: a stage is unlocked only after a passed quiz |
| `Learning.CompleteAfterPassDropsProgress` | src/context/LearningContext.tsx:179-187 | completing a lesson after the quiz was passed recomputes the stage from its lessons (100 becomes 50), with `quizPassed` still true |
| `Learning.TwoLessonScenario` | src/context/LearningContext.tsx:168-200 | completing two lessons of a one-stage skill gives 50 then 100 for stage and skill |
| `Learning.PassFirstOfTwoScenario` | src/context/LearningContext.tsx:208-244 | passing the first of two stages completes it and unlocks the second, whose progress is kept |
| `Learning.FilterCatalogMembers` | src/context/LearningContext.tsx:149-157 | a catalog skill is kept iff its lower-cased name was requested; it comes back with the requested level; never more skills than the catalog |
| `Learning.FilterCatalogAppend` | src/context/LearningContext.tsx:149-157 | the filter works skill by skill in catalog order: filtering a concatenation concatenates the results |
| `Learning.FilterCatalogPreservesWellFormed` | src/context/LearningContext.tsx:149-157 | the kept skills satisfy the tree invariant when the catalog does |
| `Learning.LearningStore.constructor` | src/context/LearningContext.tsx:81-87 | the provider's initial state |
| `Learning.LearningStore.CompleteLesson` | src/context/LearningContext.tsx:168-206 | the tree becomes `CompleteLessonIn` of the old one; the streak goes up by exactly 1 on every call; nothing else changes |
| `Learning.LearningStore.PassQuiz` | src/context/LearningContext.tsx:208-249 | the tree becomes `PassQuizIn` of the old one; the streak and the other fields are unchanged |
| `Learning.LearningStore.StartGenerate` | src/context/LearningContext.tsx:135-140 | loading is raised and goal, skills, level and language are set before the fetch |
| `Learning.LearningStore.FinishGenerate` | src/context/LearningContext.tsx:143-165 | success: the filtered catalog replaces the tree and the streak is 1; failure: tree and streak kept; loading ends false either way |
| `Learning.LearningStore.GenerateRoadmap` | src/context/LearningContext.tsx:128-166 | the whole request: the four settings are set whatever the outcome, and the tree and streak change only on success |
| `Learning.LearningStore.SetPreferredLanguage` | src/context/LearningContext.tsx:85 | only the language changes |
| `Learning.PassQuizOnSkill` | src/context/LearningContext.tsx:211-244 | the per-skill step of `passQuiz`, through an array copy, computes `PassQuizInSkill` |
| `Learning.PassStageInPlace` | src/context/LearningContext.tsx:219-232 | slot i is marked passed and slot i+1, if any, unlocked, in place |
| `Catalog.RoadmapInitial` | src/data/mockRoadmap.ts:4-273 | every skill and stage starts at 0, every lesson not completed, only the first stage unlocked, no stage completed or passed, stage numbers 1, 2, …, every correct index valid, every stage with lessons and every quiz with questions |
| `Catalog.RoadmapWellFormed` | src/data/mockRoadmap.ts:4-273 | the fixture satisfies the tree invariant |
| `Catalog.RoadmapSkills` | src/data/mockRoadmap.ts:10-209 | three skills, JavaScript, React, Python, with distinct ids |
| `Catalog.FilterRoadmap` | src/context/LearningContext.tsx:149-157 | any request yields JavaScript, React, Python in that order, each present iff its lower-cased name was requested, with the requested level |
| `Catalog.OfferedInCatalog` | src/data/mockRoadmap.ts:276-286 | of the offered skills, only the first three have catalog entries; each other one yields nothing |
| `QuizFlow.CorrectCount` | src/components/Quiz.tsx:54-58 | at most the number of questions; all iff every answer is correct; 0 iff none is; an unanswered slot never counts |
| `QuizFlow.ScoreBounds` | src/components/Quiz.tsx:60 | the score is in [0,100], 100 iff all answers are correct, 0 iff none is |
| `QuizFlow.PassedIffCount` | src/components/Quiz.tsx:61 | passed iff 100·correct ≥ passingScore·questions |
| `QuizFlow.UnansweredScoresZero` | src/components/Quiz.tsx:54-61 | with no answers the score is 0 and the default threshold is not met |
| `QuizFlow.CalculateScore` | src/components/Quiz.tsx:51-61 | the counting loop yields the score of the answers, and passed iff the score reaches the threshold |
| `QuizFlow.FirstJavaScriptQuiz` | src/data/mockRoadmap.ts:59-79 | answering 3, 1, 0 scores 200/3 and fails at 70; answering 3, 1, 2 scores 100 |
| `QuizFlow.QuizSession.constructor` | src/components/Quiz.tsx:22-26 | cursor 0, no answers, no results; the threshold defaults to 70 (`DefaultPassingScore`) |
| `QuizFlow.QuizSession.SelectOption` | src/components/Quiz.tsx:30-34 | only the slot at the cursor changes |
| `QuizFlow.QuizSession.PressNext` | src/components/Quiz.tsx:36-43 | unanswered: nothing; before the last question: the cursor advances; on the last: results shown and the score of the answers reported once; the cursor stays in range and every question before it is answered |
| `QuizFlow.QuizSession.PressPrev` | src/components/Quiz.tsx:45-49 | the cursor goes back by one unless it is 0 |
| `QuizFlow.QuizSession.Retake` | src/components/Quiz.tsx:111-115 | cursor 0, all answers cleared, results hidden |
| `QuizFlow.TwoQuestionAttempt` | src/components/Quiz.tsx:36-69 | a full attempt reports exactly the score of the given answers and its pass verdict |
| `LessonPage.Resolve` | src/pages/Lesson.tsx:23-54 | skill not found, else stage not found, else `quiz` selects the quiz with no lesson lookup, else lesson found or not; what is found has the route's ids |
| `LessonPage.ResolveFindsLesson` | src/pages/Lesson.tsx:23-54 | a lesson that exists in the tree, with an id other than `quiz`, is reached |
| `LessonPage.Redirect` | src/pages/Lesson.tsx:23-54 | exactly the three failures redirect |
| `LessonPage.OnLessonCompletion` | src/pages/Lesson.tsx:56-61 | `completeLesson` is requested iff all three ids are present and the lesson id is not `quiz`, with those ids |
| `LessonPage.OnQuizCompletion` | src/pages/Lesson.tsx:63-68 | `passQuiz` is requested iff the quiz was passed and both ids are present |
| `LessonPage.QuizCompletionRequestsPass` | src/pages/Lesson.tsx:183 | with the page's threshold of 70, `passQuiz` is requested iff 100·correct ≥ 70·questions and the ids are present |
| `LessonPage.NextLessonTarget` | src/pages/Lesson.tsx:81-92 | for the first lesson carrying the current id: the next lesson, or the quiz after the last; an id not in the stage gives the first lesson, or the quiz when the stage is empty; nothing without a lesson |
| `LessonPage.NextLessonInOrder` | src/pages/Lesson.tsx:81-92 | with distinct ids, the link goes to the next lesson, and from the last one to the quiz |
| `LessonPage.NextLessonUnknownId` | src/pages/Lesson.tsx:81-92 | an id not in the stage has index -1, so the link goes to the first lesson |
| `LessonPage.VideoForOneLanguage` | src/pages/Lesson.tsx:228 | the video shows only for a video lesson and only for one preferred language |
| `LessonPage.CompletionHidesButton` | src/pages/Lesson.tsx:151 | after the completion request is carried out, that lesson no longer offers Mark as Completed, and other stages are untouched |
| `RoadmapPage.DisplayedSkill` | src/pages/Roadmap.tsx:16-24 | the shown skill has the route id; none, and so a redirect, iff no skill has it |
| `RoadmapPage.BadgesCover` | src/pages/Roadmap.tsx:115-129 | at least one badge shows, and In Progress never with another |
| `RoadmapPage.LockedAndCompleted` | src/pages/Roadmap.tsx:115-129 | a locked stage whose quiz is passed shows Completed and Locked together |
| `RoadmapPage.LessonActionFor` | src/pages/Roadmap.tsx:173-189 | disabled iff the stage is locked; otherwise Review iff the lesson is completed, else Start |
| `RoadmapPage.QuizPanelsExclusive` | src/pages/Roadmap.tsx:197-215 | the two quiz panels never show together; a locked, unpassed stage shows neither |
| `RoadmapPage.CompletedBadgeIffQuizPanel` | src/pages/Roadmap.tsx:115-197 | in an engine-produced tree the Completed badge and the Quiz Completed panel go together |
| `RoadmapPage.AllCompletedMeaning` | src/pages/Roadmap.tsx:243 | the congratulation shows for zero stages, and otherwise iff every quiz is passed |
| `RoadmapPage.AllCompletedNothingPending` | src/pages/Roadmap.tsx:243 | once all stages are completed no In Progress badge or Quiz Required panel shows |
| `SelectPath.FilterSkills` | src/pages/SelectPath.tsx:20-22 | the listed skills are those whose lower-cased name contains the lower-cased filter |
| `SelectPath.EmptyFilterShowsAll` | src/pages/SelectPath.tsx:20-22 | an empty filter lists every skill, in order |
| `SelectPath.FilterIgnoresCase` | src/pages/SelectPath.tsx:20-22 | the filter ignores ASCII case |
| `SelectPath.Remove` | src/pages/SelectPath.tsx:26 | exactly the other names remain |
| `SelectPath.RemoveKeepsDistinct` | src/pages/SelectPath.tsx:26 | no duplicates arise; exactly one entry goes when the name was selected |
| `SelectPath.ToggleSelected` | src/pages/SelectPath.tsx:25-26 | toggling a selected name removes it and keeps every other one |
| `SelectPath.ToggleUnselected` | src/pages/SelectPath.tsx:27-32 | an unselected name is appended while fewer than 3 are selected; otherwise nothing changes |
| `SelectPath.ToggleKeepsSelectionOk` | src/pages/SelectPath.tsx:24-34 | the selection stays at most 3 distinct names |
| `SelectPath.ToggleTwice` | src/pages/SelectPath.tsx:24-34 | selecting then deselecting a name restores the selection |
| `SelectPath.LowerAll` | src/pages/SelectPath.tsx:50 | each name lower-cased, in order |
| `SelectPath.Continue` | src/pages/SelectPath.tsx:36-53 | blank goal rejected first, then an empty selection, otherwise generation with the lower-cased names |
| `SelectPath.DisabledIffRejected` | src/pages/SelectPath.tsx:218 | the button is disabled exactly when Continue would reject |
| `SelectPath.SelectPathForm.SelectSkill` | src/pages/SelectPath.tsx:24-34 | the selection becomes the toggled one and keeps its invariant |
| `Dashboard.SkillProgresses` | src/pages/Dashboard.tsx:16 | the skills' progress values in order |
| `Dashboard.OverallProgressMeaning` | src/pages/Dashboard.tsx:15-17 | 0 without skills; otherwise the value times the count is the sum |
| `Dashboard.OverallProgressBounded` | src/pages/Dashboard.tsx:15-17 | percentages in, a percentage out |
| `Dashboard.WellFormedOverallBounded` | src/pages/Dashboard.tsx:15-17 | for any engine-produced tree the value is in [0,100] |
| `Dashboard.OverallProgressOrderFree` | src/pages/Dashboard.tsx:16 | the value does not depend on the order of the skills |
| `Profile.Mastered` | src/pages/Profile.tsx:43 | exactly the skills at 100 |
| `Profile.Active` | src/pages/Profile.tsx:45 | exactly the skills strictly between 0 and 100 |
| `Profile.MasteredActiveDisjoint` | src/pages/Profile.tsx:43-45 | no skill is in both lists; a skill at 0 is in neither |
| `Profile.MasteredActiveCount` | src/pages/Profile.tsx:43-45 | the lists together never exceed the skills; in an engine-produced tree every skill is mastered, active or at 0 |
| `Profile.QuizzesPassedBounded` | src/pages/Profile.tsx:121-123 | the count is at most the number of stages, and 0 iff no quiz is passed |
| `Profile.InitialNoQuizzesPassed` | src/pages/Profile.tsx:121-123 | a freshly fetched roadmap counts 0 |
| `Profile.QuizzesPassedCountsCompleted` | src/pages/Profile.tsx:121-123 | in an engine-produced tree the count equals the number of completed stages |
| `Profile.InitialsShape` | src/pages/Profile.tsx:71-74 | `U` without a user; otherwise at most two characters, both initials when both names are non-empty, empty when both are empty |
| `Profile.LoginInitials` | src/pages/Profile.tsx:71-74 | a user signed in with an email starting with `@` gets `U`, from the last name only |
| `Profile.CompleteProjects` | src/pages/Profile.tsx:54 | exactly the projects with status Complete |
| `Profile.ExportSelection` | src/pages/Profile.tsx:50-54 | the export gets the user, exactly the mastered skills, and projects 1 and 3 |
| `Profile.LabelIffMastered` | src/pages/Profile.tsx:173-174 | a skill is labelled Completed iff its progress is 100 |
| `ProgressBar.Normalize` | src/components/ProgressBar.tsx:33 | in [0,100]; unchanged inside; below 0 gives 0; above 100 gives 100 |
| `ProgressBar.NormalizeIdempotent` | src/components/ProgressBar.tsx:33 | clamping twice is clamping once |
| `ProgressBar.Round` | src/components/ProgressBar.tsx:53 | the nearest integer, halves upward |
| `ProgressBar.PercentageLabel` | src/components/ProgressBar.tsx:51-55 | a label iff `showPercentage`, a whole number in [0,100] |
| `Auth.LoginUserName` | src/context/AuthContext.tsx:63-68 | the first name is the whole email without `@`, else the text before the first `@` |
| `Auth.AuthSession.constructor` | src/context/AuthContext.tsx:34-36 | no user, no token, loading |
| `Auth.AuthSession.Restore` | src/context/AuthContext.tsx:39-50 | a stored session is taken over only when both token and user are present; loading ends |
| `Auth.AuthSession.Login` | src/context/AuthContext.tsx:52-87 | fails iff the password is shorter than 6 UTF-16 code units, with user and token unchanged; success sets user `123`/email/first name/`User` and token `mock-jwt-token`; loading ends false |
| `Auth.AuthSession.Register` | src/context/AuthContext.tsx:89-120 | no check; the given details become the user; loading ends false |
| `Auth.AuthSession.Logout` | src/context/AuthContext.tsx:122-128 | user and token cleared |
| `Auth.LoginLogoutLogin` | src/context/AuthContext.tsx:52-133 | login authenticates, logout de-authenticates, and logging in again gives the same user |
| `AuthForms.LoginIssuesMeaning` | src/pages/Auth.tsx:13-16 | valid iff the email is valid and the password has at least 6 UTF-16 code units; each broken rule reports on its field |
| `AuthForms.RegisterFieldIssuesMeaning` | src/pages/Auth.tsx:18-23 | each field of the sign-up form reports exactly when its own rule is broken |
| `AuthForms.RegisterIssuesMeaning` | src/pages/Auth.tsx:18-27 | valid iff names ≥ 2 and passwords ≥ 6 UTF-16 code units, email valid and passwords equal; a mismatch reports on `confirmPassword` whatever else is wrong |
| `AuthForms.SubmitLogin` | src/pages/Auth.tsx:57-59 | a call iff the form is valid, with exactly the entered email and password |
| `AuthForms.SubmitRegister` | src/pages/Auth.tsx:66-68 | a call iff the form is valid, with the entered details and without the confirmation |
| `AuthForms.SubmitLoginForm` | src/pages/Auth.tsx:57-64 | an invalid form leaves the session alone; a valid form always signs in |
| `AuthForms.SubmitRegisterForm` | src/pages/Auth.tsx:66-73 | a valid form registers the entered names; an invalid one changes nothing |
| `EditProfile.UpdateOnlyNamed` | src/components/EditProfileModal.tsx:35-41 | the named field gets the value, every other field is kept, and the last change wins |
| `EditProfile.FallbackIffRejected` | src/components/EditProfileModal.tsx:116-125 | the placeholder is `U` exactly when a submit would be rejected |
| `EditProfile.AvatarShown` | src/components/EditProfileModal.tsx:116-125 | a set avatar takes precedence over the placeholder |
| `EditProfile.EditProfileForm.constructor` | src/components/EditProfileModal.tsx:25-32 | the user's names and avatar, defaulting to empty, and the current language; not loading |
| `EditProfile.EditProfileForm.HandleChange` | src/components/EditProfileModal.tsx:35-41 | the form becomes `Update` of the old one |
| `EditProfile.EditProfileForm.Submit` | src/components/EditProfileModal.tsx:61-91 | accepted iff both names are non-empty; the language is pushed iff accepted and different; the rest of the store is unchanged; a rejection changes nothing |
| `EditProfile.OpenFillSubmit` | src/components/EditProfileModal.tsx:61-91 | an empty form is rejected, and filling in both names makes it go through without a push |
| `Chat.ReplyKindOf` | src/components/ChatWidget.tsx:26-34 | greeting iff `hello` or `hi` occurs; else help iff `help`; else encouragement iff `difficult`, `hard` or `confused`; else echo |
| `Chat.Reply` | src/components/ChatWidget.tsx:33 | the echo is the prefix followed by the message as typed |
| `Chat.ReplyKindIgnoresCase` | src/components/ChatWidget.tsx:26-31 | the choice ignores ASCII case |
| `Chat.GreetingInsideWord` | src/components/ChatWidget.tsx:26 | `this is hard` gets the greeting, because `hi` occurs inside `this` |
| `Chat.HelpBeforeDifficulty` | src/components/ChatWidget.tsx:28-30 | `help: hard` gets the help text, not the encouragement |
| `Chat.ChatWidget.constructor` | src/components/ChatWidget.tsx:13-15 | the history is the one greeting |
| `Chat.ChatWidget.Send` | src/components/ChatWidget.tsx:17-40 | blank: nothing changes; otherwise the user entry is appended as typed, its reply scheduled and the input cleared; every user entry keeps one bot answer shown or pending |
| `Chat.ChatWidget.DeliverReply` | src/components/ChatWidget.tsx:35 | the oldest pending reply is appended as a bot entry |
| `Chat.FirstExchange` | src/components/ChatWidget.tsx:13-40 | one send after the greeting shows the user entry, then its reply |

## Left out

- Browser storage is not modelled: the `localStorage` reads and writes and their JSON encoding. `Auth.AuthSession.Restore` takes the stored strings and the parser as parameters. The learning provider's save and restore effects are left out.
- Timing is not modelled: the one-second delays, `async`/`await` and the debounced autosave. Each operation is its state once it has finished. The chat's scheduled replies are a queue, and `DeliverReply` is a timer firing.
- No navigation or toast is modelled. Redirect targets and rejections are returned values.
- Progress and scores are exact reals, not IEEE doubles. `Math.round` appears only in `ProgressBar.Round`.
- `Learning.LessonRatio`, `Learning.SkillProgress`, `QuizFlow.Score` and `QuizFlow.CalculateScore` require their lists to be non-empty. The source evaluates 0/0 to `NaN` there, which is not modelled.
- `QuizFlow.QuizSession.constructor` requires at least one question. With none, `questions[currentQuestionIndex]` in src/components/Quiz.tsx:28 is `undefined` and rendering it throws, which is not modelled.
- `AuthForms.LoginIssues` and `AuthForms.RegisterIssues`: the validation library's email check is the parameter `isEmail`, not a model of its format rule.
- `Auth.AuthSession.Login`, `AuthForms.LoginIssues` and `AuthForms.RegisterIssues` count lengths in UTF-16 code units through `Text.Utf16Length`, as `.length` does. A string holding a lone surrogate cannot be written as a Dafny string, so those inputs are not modelled.
- `Profile.InitialsShape`, `Profile.LoginInitials`, `EditProfile.FallbackIffRejected` and `EditProfile.AvatarShown` take the first character of each name. `charAt(0)` and `[0]` in src/pages/Profile.tsx:73 and src/components/EditProfileModal.tsx:125 take the first UTF-16 code unit, which is half a character for a name starting outside the Basic Multilingual Plane.
- `LessonPage.Resolve` is the outcome of the effect on a freshly mounted page. The lesson route keeps one page instance across route changes, and nothing resets `showQuiz` (src/pages/Lesson.tsx:42, :52, :178), so moving from the stage quiz to a lesson in the same instance keeps the quiz shown. That carried-over state is not modelled.
- `Text.Lower` and `Text.IsBlank` cover ASCII case and the ECMAScript white-space set. Unicode case mapping is not modelled.
- `QuizFlow.QuizSession.Retake` writes one empty slot per question. The source writes an empty array, which reads back the same: `undefined` at every index.
- The avatar file upload of the edit-profile dialog is not modelled, because it goes through `FileReader`.
- The learning streak is modelled only as "+1 per `completeLesson`". The source has no date logic.
- `Learning.LearningStore.PassQuiz` and `Learning.LearningStore.CompleteLesson` require the tree invariant. Every tree the provider holds satisfies it.
- Rendering is left out except for the display conditions named above. This covers markup, styles, icons, and the badge and colour lookups.
- The resume PDF generation, the supabase type declarations, date formatting, routing and provider wiring are left out. They have no behaviour of their own.
