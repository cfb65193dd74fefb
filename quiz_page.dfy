/**
 * A quiz run: one recorded answer slot per question, the selection for the
 * current question, and the score counted when the last question is answered.
 */
module QuizPage {
  import opened Opt
  import opened LearningContent

  /** The number of the first `k` answers that equal their question's answer index. */
  function CountCorrect(answers: seq<Option<int>>, questions: seq<Question>, k: nat): (c: nat)
    requires k <= |answers| <= |questions|
    ensures c <= k
  {
    if k == 0 then 0
    else CountCorrect(answers, questions, k - 1)
         + (if answers[k - 1] == Some(questions[k - 1].answer) then 1 else 0)
  }

  /** The score of a finished quiz: how many recorded answers are right. */
  function Score(answers: seq<Option<int>>, questions: seq<Question>): (c: nat)
    requires |answers| == |questions|
    ensures c <= |questions|
  {
    CountCorrect(answers, questions, |answers|)
  }

  /** Every answer is right exactly when the score is the number of questions. */
  lemma {:induction false} FullScoreIffAllCorrect(answers: seq<Option<int>>, questions: seq<Question>, k: nat)
    requires k <= |answers| <= |questions|
    ensures CountCorrect(answers, questions, k) == k
            <==> forall i :: 0 <= i < k ==> answers[i] == Some(questions[i].answer)
  {
    if k > 0 {
      FullScoreIffAllCorrect(answers, questions, k - 1);
    }
  }

  /** Unanswered slots never score. */
  lemma {:induction false} UnansweredScoresNothing(answers: seq<Option<int>>, questions: seq<Question>, k: nat)
    requires k <= |answers| <= |questions|
    requires forall i :: 0 <= i < k ==> answers[i].None?
    ensures CountCorrect(answers, questions, k) == 0
  {
    if k > 0 {
      UnansweredScoresNothing(answers, questions, k - 1);
    }
  }

  /** What `handleComplete` hands back to the home page. */
  datatype QuizReport = QuizReport(studyType: string, contentTitle: string, score: nat, totalQuestions: nat)

  /** The state of the quiz page. */
  class QuizSession {
    const title: string
    const questions: seq<Question>
    var index: nat
    var selected: Option<int>
    var answers: seq<Option<int>>
    var showResults: bool
    var score: nat

    predicate Valid()
      reads this
    {
      |answers| == |questions|
      && (index < |questions| || (|questions| == 0 && index == 0))
      && (selected.Some? ==> index < |questions|)
      && score <= |questions|
    }

    /** Opening a quiz: the first question, nothing selected, one empty slot per question. */
    constructor(title: string, questions: seq<Question>)
      ensures Valid() && this.title == title && this.questions == questions
      ensures index == 0 && selected.None? && !showResults && score == 0
      ensures |answers| == |questions| && forall i :: 0 <= i < |answers| ==> answers[i].None?
    {
      this.title := title;
      this.questions := questions;
      index := 0;
      selected := None;
      answers := seq(|questions|, _ => None);
      showResults := false;
      score := 0;
    }

    /** `handleAnswerSelect(i)`: clicking option `i` of the question on screen. */
    method SelectAnswer(i: int)
      requires Valid() && !showResults && index < |questions| && 0 <= i < |questions[index].options|
      modifies this
      ensures Valid() && selected == Some(i)
      ensures index == old(index) && answers == old(answers) && showResults == old(showResults)
      ensures score == old(score)
    {
      selected := Some(i);
    }

    /**
     * `handleNextQuestion`: without a selection nothing happens; otherwise the
     * selection is written into the current slot, and either the next question
     * comes with the selection cleared, or, on the last question, the score
     * of all slots is counted and the results are shown.
     */
    method NextQuestion()
      requires Valid() && !showResults
      modifies this
      ensures Valid()
      ensures old(selected).None? ==>
        index == old(index) && selected == old(selected) && answers == old(answers)
        && showResults == old(showResults) && score == old(score)
      ensures old(selected).Some? ==> answers == old(answers)[old(index) := old(selected)]
      ensures old(selected).Some? && old(index) < |questions| - 1 ==>
        index == old(index) + 1 && selected.None? && !showResults && score == old(score)
      ensures old(selected).Some? && old(index) == |questions| - 1 ==>
        index == old(index) && selected == old(selected) && showResults
        && score == Score(answers, questions)
    {
      if selected.Some? {
        var newAnswers := answers[index := Some(selected.value)];
        answers := newAnswers;
        if index < |questions| - 1 {
          index := index + 1;
          selected := None;
        } else {
          var correctAnswers := 0;
          var k := 0;
          while k < |newAnswers|
            invariant 0 <= k <= |newAnswers|
            invariant correctAnswers == CountCorrect(newAnswers, questions, k)
          {
            if newAnswers[k] == Some(questions[k].answer) {
              correctAnswers := correctAnswers + 1;
            }
            k := k + 1;
          }
          score := correctAnswers;
          showResults := true;
        }
      }
    }

    /** `handleComplete`: the score and the number of questions go back to the home page. */
    method Complete() returns (report: QuizReport)
      ensures report == QuizReport("quizzes", title, score, |questions|)
    {
      report := QuizReport("quizzes", title, score, |questions|);
    }
  }
}
