/** The quiz component: a question cursor, one answer slot per question, the
    results view and the scoring loop (src/components/Quiz.tsx).

    `selectedOptions` is a sparse JavaScript array; here it is a sequence with
    one `Option` per question, `None` standing for a hole (`undefined`). */
module QuizFlow {
  import opened Wrappers
  import opened Learning
  import opened Progress
  import Catalog

  /** `passingScore = 70` */
  const DefaultPassingScore: real := 70.0

  /** `selectedOptions[index] === question.correctOptionIndex`: a hole is never
      equal to a number. */
  predicate IsCorrect(q: Question, answer: Option<int>) {
    answer == Some(q.correctOptionIndex)
  }

  /** The number of correctly answered questions, counted front to back as the
      `forEach` loop does. */
  function CorrectCount(qs: seq<Question>, answers: seq<Option<int>>): (n: nat)
    requires |answers| == |qs|
    ensures n <= |qs|
    ensures n == |qs| <==> forall i :: 0 <= i < |qs| ==> IsCorrect(qs[i], answers[i])
    ensures n == 0 <==> forall i :: 0 <= i < |qs| ==> !IsCorrect(qs[i], answers[i])
  {
    if |qs| == 0 then 0
    else
      var k := |qs| - 1;
      CorrectCount(qs[..k], answers[..k]) + (if IsCorrect(qs[k], answers[k]) then 1 else 0)
  }

  /** `(correctAnswers / questions.length) * 100` */
  function Score(qs: seq<Question>, answers: seq<Option<int>>): real
    requires |qs| > 0 && |answers| == |qs|
  {
    Percent(CorrectCount(qs, answers), |qs|)
  }

  /** The score is a percentage, 100 exactly when every answer is correct and 0
      exactly when none is. */
  lemma ScoreBounds(qs: seq<Question>, answers: seq<Option<int>>)
    requires |qs| > 0 && |answers| == |qs|
    ensures 0.0 <= Score(qs, answers) <= 100.0
    ensures Score(qs, answers) == 100.0 <==> forall i :: 0 <= i < |qs| ==> IsCorrect(qs[i], answers[i])
    ensures Score(qs, answers) == 0.0 <==> forall i :: 0 <= i < |qs| ==> !IsCorrect(qs[i], answers[i])
  {
    PercentBounds(CorrectCount(qs, answers), |qs|);
  }

  /** `score >= passingScore` in exact arithmetic: the quiz is passed exactly when
      100 times the number of correct answers reaches the threshold times the
      number of questions. */
  lemma PassedIffCount(qs: seq<Question>, answers: seq<Option<int>>, passingScore: real)
    requires |qs| > 0 && |answers| == |qs|
    ensures Score(qs, answers) >= passingScore <==> MeetsThreshold(CorrectCount(qs, answers), |qs|, passingScore)
  {
    PercentAtLeast(CorrectCount(qs, answers), |qs|, passingScore);
  }

  /** With no answers given nothing is correct, so the score is 0 and no
      positive threshold is met. */
  lemma UnansweredScoresZero(qs: seq<Question>, answers: seq<Option<int>>)
    requires |qs| > 0 && |answers| == |qs|
    requires forall i :: 0 <= i < |answers| ==> answers[i].None?
    ensures Score(qs, answers) == 0.0
    ensures Score(qs, answers) < DefaultPassingScore
  {
    ScoreBounds(qs, answers);
  }

  /** `calculateScore`: the counting loop, the division and the comparison. */
  method CalculateScore(qs: seq<Question>, answers: seq<Option<int>>, passingScore: real)
    returns (score: real, passed: bool)
    requires |qs| > 0 && |answers| == |qs|
    ensures score == Score(qs, answers)
    ensures passed <==> score >= passingScore
    ensures passed <==> MeetsThreshold(CorrectCount(qs, answers), |qs|, passingScore)
  {
    var correctAnswers: nat := 0;
    var index := 0;
    while index < |qs|
      invariant 0 <= index <= |qs|
      invariant correctAnswers == CorrectCount(qs[..index], answers[..index])
    {
      assert qs[..index + 1][..index] == qs[..index];
      assert answers[..index + 1][..index] == answers[..index];
      if answers[index] == Some(qs[index].correctOptionIndex) {
        correctAnswers := correctAnswers + 1;
      }
      index := index + 1;
    }
    assert qs[..index] == qs && answers[..index] == answers;
    score := Percent(correctAnswers, |qs|);
    passed := score >= passingScore;
    PassedIffCount(qs, answers, passingScore);
  }

  /** The first JavaScript quiz of the catalog: answering its three questions
      with 3, 1, 0 gets two right, which scores 200/3 and fails the default
      threshold; answering 3, 1, 2 gets all three right and passes. */
  lemma FirstJavaScriptQuiz()
    ensures var qs := Catalog.JavaScriptSkill.stages[0].quiz.questions;
      && |qs| == 3
      && CorrectCount(qs, [Some(3), Some(1), Some(0)]) == 2
      && Score(qs, [Some(3), Some(1), Some(0)]) == 200.0 / 3.0
      && Score(qs, [Some(3), Some(1), Some(0)]) < DefaultPassingScore
      && Score(qs, [Some(3), Some(1), Some(2)]) == 100.0
  {
    var qs := Catalog.JavaScriptSkill.stages[0].quiz.questions;
    var wrong: seq<Option<int>> := [Some(3), Some(1), Some(0)];
    assert CorrectCount(qs, wrong) == 2 by {
      assert qs[..2] == [qs[0], qs[1]] && wrong[..2] == [Some(3), Some(1)];
      assert qs[..2][..1] == [qs[0]] && wrong[..2][..1] == [Some(3)];
    }
    ScoreBounds(qs, [Some(3), Some(1), Some(2)]);
  }

  /** What `onComplete(score, passed)` receives. */
  datatype Outcome = Outcome(score: real, passed: bool)

  function NoAnswers(n: nat): (r: seq<Option<int>>)
    ensures |r| == n && forall i :: 0 <= i < n ==> r[i].None?
  {
    seq(n, i => None)
  }

  /** One mounted quiz: its questions and threshold (props), the cursor, the
      answer slots and the results flag (state), and the outcomes reported to
      the parent so far. */
  class QuizSession {
    const questions: seq<Question>
    const passingScore: real
    var current: nat
    var selected: seq<Option<int>>
    var showResults: bool
    var reported: seq<Outcome>

    /** The cursor stays on a question; Next is only enabled on an answered
        question, so every question before the cursor is answered, and the
        results view is only reached with every question answered. Each report
        belongs to one submission. */
    ghost predicate Valid()
      reads this
    {
      && |questions| > 0
      && current < |questions|
      && |selected| == |questions|
      && (forall i :: 0 <= i < current ==> selected[i].Some?)
      && (showResults ==> current == |questions| - 1)
      && (showResults ==> forall i :: 0 <= i < |selected| ==> selected[i].Some?)
      && (showResults ==> |reported| > 0)
    }

    constructor (qs: seq<Question>, threshold: real)
      requires |qs| > 0
      ensures Valid()
      ensures questions == qs && passingScore == threshold
      ensures current == 0 && selected == NoAnswers(|qs|) && !showResults && reported == []
    {
      questions := qs;
      passingScore := threshold;
      current := 0;
      selected := NoAnswers(|qs|);
      showResults := false;
      reported := [];
    }

    /** `handleOptionSelect`: clicking one of the current question's options
        fills the current slot and nothing else. */
    method SelectOption(optionIndex: int)
      requires Valid() && !showResults
      requires 0 <= optionIndex < |questions[current].options|
      modifies this
      ensures Valid()
      ensures selected == old(selected)[current := Some(optionIndex)]
      ensures current == old(current) && !showResults && reported == old(reported)
    {
      selected := selected[current := Some(optionIndex)];
    }

    /** The Next / Submit button. It is disabled while the current question is
        unanswered; otherwise it advances the cursor, or on the last question
        shows the results and reports the score once. */
    method PressNext()
      requires Valid() && !showResults
      modifies this
      ensures Valid()
      ensures selected == old(selected)
      ensures old(selected[current]).None? ==>
        current == old(current) && !showResults && reported == old(reported)
      ensures old(selected[current]).Some? && old(current) < |questions| - 1 ==>
        current == old(current) + 1 && !showResults && reported == old(reported)
      ensures old(selected[current]).Some? && old(current) == |questions| - 1 ==>
        && current == old(current) && showResults
        && reported == old(reported) + [Outcome(Score(questions, selected),
                                                Score(questions, selected) >= passingScore)]
    {
      if selected[current].None? {
        return;
      }
      if current < |questions| - 1 {
        current := current + 1;
      } else {
        showResults := true;
        var score, passed := CalculateScore(questions, selected, passingScore);
        reported := reported + [Outcome(score, passed)];
      }
    }

    /** The Previous button: disabled on the first question. */
    method PressPrev()
      requires Valid() && !showResults
      modifies this
      ensures Valid()
      ensures current == if old(current) > 0 then old(current) - 1 else 0
      ensures selected == old(selected) && !showResults && reported == old(reported)
    {
      if current > 0 {
        current := current - 1;
      }
    }

    /** Retake Quiz: back to the first question with every answer cleared. */
    method Retake()
      requires Valid() && showResults
      modifies this
      ensures Valid()
      ensures current == 0 && selected == NoAnswers(|questions|) && !showResults
      ensures reported == old(reported)
    {
      current := 0;
      selected := NoAnswers(|questions|);
      showResults := false;
    }
  }

  /** A whole attempt on a two-question quiz: answer, next, answer, submit. The
      outcome is reported exactly once, with the score of the given answers. */
  method TwoQuestionAttempt(qs: seq<Question>, a0: nat, a1: nat) returns (outcome: Outcome)
    requires |qs| == 2
    requires a0 < |qs[0].options| && a1 < |qs[1].options|
    ensures outcome.score == Score(qs, [Some(a0), Some(a1)])
    ensures outcome.passed <==> outcome.score >= DefaultPassingScore
  {
    var session := new QuizSession(qs, DefaultPassingScore);
    session.SelectOption(a0);
    session.PressNext();
    session.SelectOption(a1);
    session.PressNext();
    assert session.selected == [Some(a0), Some(a1)];
    outcome := session.reported[0];
  }
}
