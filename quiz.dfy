/** The knowledge check of SessionQuiz.tsx: one question at a time, an
    answer locks the question, exact-match scoring and a bonus of 5 points
    per correct answer. */
module Quiz {
  import opened Wrappers
  import opened Types

  /** JavaScript truthiness of a `string | null` slot. */
  predicate Truthy(s: Option<string>) {
    s.Some? && s.value != ""
  }

  /** No question has the empty string as its correct answer. */
  predicate NoEmptyAnswer(quiz: seq<QuizQuestion>) {
    forall k :: 0 <= k < |quiz| ==> quiz[k].correctAnswer != ""
  }

  /** The number of `answers` equal to their question's correct answer. */
  function CorrectCount(quiz: seq<QuizQuestion>, answers: seq<string>): nat
    requires |answers| == |quiz|
  {
    if quiz == [] then 0
    else
      CorrectCount(quiz[..|quiz| - 1], answers[..|answers| - 1])
      + (if answers[|answers| - 1] == quiz[|quiz| - 1].correctAnswer then 1 else 0)
  }

  /** At most one point per question, and full marks exactly when every
      answer is right. */
  lemma {:induction false} CorrectCountBounds(quiz: seq<QuizQuestion>, answers: seq<string>)
    requires |answers| == |quiz|
    ensures CorrectCount(quiz, answers) <= |quiz|
    ensures CorrectCount(quiz, answers) == |quiz| <==>
      forall k :: 0 <= k < |quiz| ==> answers[k] == quiz[k].correctAnswer
  {
    if quiz != [] {
      var n := |quiz| - 1;
      CorrectCountBounds(quiz[..n], answers[..n]);
      assert forall k :: 0 <= k < n ==> quiz[..n][k] == quiz[k] && answers[..n][k] == answers[k];
    }
  }

  class SessionQuiz {
    const quiz: seq<QuizQuestion>
    var index: nat
    var selected: Option<string>
    var isCorrect: Option<bool>
    var score: nat
    /** How many selections the guard let through. */
    ghost var accepted: nat
    /** Whether the current question has already scored. */
    ghost var scoredHere: bool

    /** The score never exceeds the selections taken; when no correct answer
        is empty it never exceeds the questions answered either. */
    ghost predicate Valid()
      reads this
    {
      && score <= accepted
      && index <= |quiz|
      && (NoEmptyAnswer(quiz) && scoredHere ==> index < |quiz| && selected == Some(quiz[index].correctAnswer))
      && (NoEmptyAnswer(quiz) ==> score <= index + (if scoredHere then 1 else 0))
    }

    /** `isFinished`. */
    predicate Finished()
      reads this
    {
      index >= |quiz|
    }

    constructor(quiz: seq<QuizQuestion>)
      ensures this.quiz == quiz && Valid()
      ensures index == 0 && selected.None? && isCorrect.None? && score == 0
    {
      this.quiz := quiz;
      index := 0;
      selected := None;
      isCorrect := None;
      score := 0;
      accepted := 0;
      scoredHere := false;
    }

    /** `handleAnswerSelect(option)`: ignored when a truthy answer is already
        selected; otherwise the option is selected, judged by exact match,
        and a correct one adds exactly 1 to the score. */
    method AnswerSelect(option: string)
      requires Valid() && !Finished()
      modifies this
      ensures Valid() && index == old(index) && score >= old(score)
      ensures Truthy(old(selected)) ==>
        selected == old(selected) && isCorrect == old(isCorrect) && score == old(score)
      ensures !Truthy(old(selected)) ==>
        && selected == Some(option)
        && isCorrect == Some(option == quiz[index].correctAnswer)
        && score == old(score) + (if option == quiz[index].correctAnswer then 1 else 0)
    {
      if Truthy(selected) {
        return;
      }
      accepted := accepted + 1;
      selected := Some(option);
      var correct := option == quiz[index].correctAnswer;
      isCorrect := Some(correct);
      if correct {
        score := score + 1;
        scoredHere := true;
      }
    }

    /** `handleNextQuestion`, offered only once a truthy answer is selected:
        the selection and verdict are cleared and the index advances by 1. */
    method NextQuestion()
      requires Valid() && !Finished() && Truthy(selected)
      modifies this
      ensures Valid()
      ensures index == old(index) + 1 && selected.None? && isCorrect.None? && score == old(score)
    {
      selected := None;
      isCorrect := None;
      index := index + 1;
      scoredHere := false;
    }

    /** `handleFinish`, offered once the quiz is finished: the bonus handed
        to `onComplete`. */
    method Finish() returns (bonus: nat)
      requires Finished()
      ensures bonus == 5 * score
    {
      bonus := score * 5;
    }
  }

  /** Answering every question with a non-empty answer, pressing Next after
      each and then Finish hands over 5 points per correct answer, hence at
      most 5 per question. */
  method PlayThrough(quiz: seq<QuizQuestion>, answers: seq<string>) returns (bonus: nat)
    requires |answers| == |quiz|
    requires forall k :: 0 <= k < |answers| ==> answers[k] != ""
    ensures bonus == 5 * CorrectCount(quiz, answers)
    ensures bonus <= 5 * |quiz|
  {
    var q := new SessionQuiz(quiz);
    var k := 0;
    while k < |quiz|
      invariant 0 <= k <= |quiz|
      invariant q.quiz == quiz && q.Valid()
      invariant q.index == k && q.selected.None?
      invariant q.score == CorrectCount(quiz[..k], answers[..k])
    {
      q.AnswerSelect(answers[k]);
      q.NextQuestion();
      assert quiz[..k + 1][..k] == quiz[..k] && answers[..k + 1][..k] == answers[..k];
      k := k + 1;
    }
    assert quiz[..k] == quiz && answers[..k] == answers;
    bonus := q.Finish();
    CorrectCountBounds(quiz, answers);
  }

  /** With the empty string as the correct answer the truthiness guard does
      not lock the question, and selecting it twice scores twice. */
  method EmptyAnswerScoresTwice() returns (score: nat)
    ensures score == 2
  {
    var q := new SessionQuiz([QuizQuestion("?", ["", "a"], "")]);
    q.AnswerSelect("");
    q.AnswerSelect("");
    score := q.score;
  }
}
