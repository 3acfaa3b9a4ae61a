/** The quiz model: immutable questions, a mutable answer sheet, a quiz that is filled in,
    started, stopped and graded, and the plain result record grading produces. */
module QuizModel {
  import opened JavaLang

  /** A question: its text, its options, the index of the correct option and its points.
      The fields are fixed at construction; there are no setters. */
  datatype QuizQuestion = QuizQuestion(question: string, options: seq<string>, correctAnswer: int, points: int)
  {
    /** `isCorrect`: compares with `correctAnswer` only; `options` is not consulted and
        `correctAnswer` is never checked against it. */
    predicate IsCorrect(answer: int)
    {
      answer == correctAnswer
    }
  }

  /** Exactly one answer value is accepted by a question. */
  lemma OneAcceptedAnswer(q: QuizQuestion, a: int, b: int)
    requires q.IsCorrect(a)
    ensures q.IsCorrect(b) <==> b == a
  {
  }

  /** The integer part of a grading result (the percentage and the completion time are
      not modelled). */
  datatype QuizResult = QuizResult(
    quizId: string,
    username: string,
    totalQuestions: int,
    correctAnswers: int,
    totalPoints: int,
    earnedPoints: int)

  /** One participant's answers: question index to chosen option index. */
  class QuizAnswer {
    const quizId: string
    const username: string
    var answers: map<int, int>

    constructor (quizId: string, username: string)
      ensures this.quizId == quizId && this.username == username
      ensures answers == map[]
    {
      this.quizId := quizId;
      this.username := username;
      answers := map[];
    }

    /** `answers.put(q, a)`: records or overwrites the answer to question `q`. */
    method AddAnswer(questionIndex: int, answerIndex: int)
      modifies this
      ensures answers == old(answers)[questionIndex := answerIndex]
    {
      answers := answers[questionIndex := answerIndex];
    }
  }

  // ---------------------------------------------------------------- grading specification

  /** The sum of the points of `qs`. */
  function SumPoints(qs: seq<QuizQuestion>): int
  {
    if qs == [] then 0 else SumPoints(qs[..|qs| - 1]) + qs[|qs| - 1].points
  }

  /** Question `i` counts as correct: the sheet has an answer for `i` and it is accepted. */
  predicate AnsweredCorrectly(qs: seq<QuizQuestion>, answers: map<int, int>, i: int)
    requires 0 <= i < |qs|
  {
    i in answers && qs[i].IsCorrect(answers[i])
  }

  /** How many of the first `n` questions are answered correctly. */
  function CorrectCount(qs: seq<QuizQuestion>, answers: map<int, int>, n: nat): int
    requires n <= |qs|
  {
    if n == 0 then 0
    else CorrectCount(qs, answers, n - 1) + (if AnsweredCorrectly(qs, answers, n - 1) then 1 else 0)
  }

  /** The points of the correctly answered questions among the first `n`. */
  function EarnedPoints(qs: seq<QuizQuestion>, answers: map<int, int>, n: nat): int
    requires n <= |qs|
  {
    if n == 0 then 0
    else EarnedPoints(qs, answers, n - 1) + (if AnsweredCorrectly(qs, answers, n - 1) then qs[n - 1].points else 0)
  }

  /** The correctly answered question indices below `n`. */
  ghost function CorrectSet(qs: seq<QuizQuestion>, answers: map<int, int>, n: nat): set<int>
    requires n <= |qs|
  {
    set i | 0 <= i < n && AnsweredCorrectly(qs, answers, i)
  }

  /** The count is the number of distinct questions answered correctly. */
  lemma {:induction false} CorrectCountIsCardinality(qs: seq<QuizQuestion>, answers: map<int, int>, n: nat)
    requires n <= |qs|
    ensures CorrectCount(qs, answers, n) == |CorrectSet(qs, answers, n)|
  {
    if n > 0 {
      CorrectCountIsCardinality(qs, answers, n - 1);
      var prev := CorrectSet(qs, answers, n - 1);
      if AnsweredCorrectly(qs, answers, n - 1) {
        assert CorrectSet(qs, answers, n) == prev + {n - 1};
        assert n - 1 !in prev;
      } else {
        assert CorrectSet(qs, answers, n) == prev;
      }
    }
  }

  /** No more questions are correct than there are questions. */
  lemma {:induction false} CorrectCountBounded(qs: seq<QuizQuestion>, answers: map<int, int>, n: nat)
    requires n <= |qs|
    ensures 0 <= CorrectCount(qs, answers, n) <= n
  {
    if n > 0 {
      CorrectCountBounded(qs, answers, n - 1);
    }
  }

  /** With no negative points, the earned points never exceed the total. */
  lemma {:induction false} EarnedAtMostTotal(qs: seq<QuizQuestion>, answers: map<int, int>, n: nat)
    requires n <= |qs|
    requires forall i :: 0 <= i < |qs| ==> qs[i].points >= 0
    ensures 0 <= EarnedPoints(qs, answers, n) <= SumPoints(qs[..n])
  {
    if n > 0 {
      EarnedAtMostTotal(qs, answers, n - 1);
      assert qs[..n][..n - 1] == qs[..n - 1];
    }
  }

  /** A sheet that answers every question correctly earns every point. */
  lemma {:induction false} AllCorrectEarnsAll(qs: seq<QuizQuestion>, answers: map<int, int>, n: nat)
    requires n <= |qs|
    requires forall i :: 0 <= i < |qs| ==> AnsweredCorrectly(qs, answers, i)
    ensures CorrectCount(qs, answers, n) == n
    ensures EarnedPoints(qs, answers, n) == SumPoints(qs[..n])
  {
    if n > 0 {
      AllCorrectEarnsAll(qs, answers, n - 1);
      assert qs[..n][..n - 1] == qs[..n - 1];
    }
  }

  /** Answers filed under an index that is not a question index change nothing. */
  lemma {:induction false} GradeIgnoresOtherKeys(qs: seq<QuizQuestion>, answers: map<int, int>, n: nat, k: int, v: int)
    requires n <= |qs|
    requires k < 0 || k >= |qs|
    ensures CorrectCount(qs, answers[k := v], n) == CorrectCount(qs, answers, n)
    ensures EarnedPoints(qs, answers[k := v], n) == EarnedPoints(qs, answers, n)
  {
    if n > 0 {
      GradeIgnoresOtherKeys(qs, answers, n - 1, k, v);
      assert AnsweredCorrectly(qs, answers[k := v], n - 1) == AnsweredCorrectly(qs, answers, n - 1);
    }
  }

  // ---------------------------------------------------------------- the quiz

  class Quiz {
    const quizId: string
    const title: string
    /** Seconds. */
    const duration: int
    var questions: seq<QuizQuestion>
    /** Epoch milliseconds of the last `start`. */
    var startTime: int
    var active: bool

    /** The identifier is "QUIZ_" followed by the creation time in epoch milliseconds. */
    constructor (createdAt: int, title: string, duration: int)
      requires IsInt32(duration)
      ensures quizId == "QUIZ_" + IntToString(createdAt)
      ensures this.title == title && this.duration == duration
      ensures questions == [] && !active
    {
      quizId := "QUIZ_" + IntToString(createdAt);
      this.title := title;
      this.duration := duration;
      questions := [];
      startTime := 0;
      active := false;
    }

    method AddQuestion(question: QuizQuestion)
      modifies this
      ensures questions == old(questions) + [question]
      ensures active == old(active) && startTime == old(startTime)
    {
      questions := questions + [question];
    }

    method Start(now: int)
      modifies this
      ensures active && startTime == now
      ensures questions == old(questions)
    {
      startTime := now;
      active := true;
    }

    method Stop()
      modifies this
      ensures !active
      ensures questions == old(questions) && startTime == old(startTime)
    {
      active := false;
    }

    /** Whole seconds since `start`, truncated toward zero. */
    function Elapsed(now: int): int
      reads this
    {
      JavaDiv(now - startTime, 1000)
    }

    predicate IsExpired(now: int)
      reads this
    {
      active && Elapsed(now) > duration
    }

    /** `Math.max(0, duration - (int) elapsed)` in `int` arithmetic; 0 while inactive. */
    function RemainingTime(now: int): int
      reads this
    {
      if !active then 0
      else
        var left := Wrap32(duration - Wrap32(Elapsed(now)));
        if left > 0 then left else 0
    }

    /** `getTotalPoints`. */
    method GetTotalPoints() returns (total: int)
      ensures total == SumPoints(questions)
    {
      total := 0;
      var i := 0;
      while i < |questions|
        invariant 0 <= i <= |questions|
        invariant total == SumPoints(questions[..i])
      {
        assert questions[..i + 1][..i] == questions[..i];
        total := total + questions[i].points;
        i := i + 1;
      }
      assert questions[..i] == questions;
    }

    /** `gradeQuiz`: one pass over the questions, looking each index up in the sheet. */
    method GradeQuiz(answer: QuizAnswer) returns (r: QuizResult)
      ensures r.quizId == quizId && r.username == answer.username
      ensures r.totalQuestions == |questions| && r.totalPoints == SumPoints(questions)
      ensures r.correctAnswers == CorrectCount(questions, answer.answers, |questions|)
      ensures r.earnedPoints == EarnedPoints(questions, answer.answers, |questions|)
    {
      var correct := 0;
      var earned := 0;
      var i := 0;
      while i < |questions|
        invariant 0 <= i <= |questions|
        invariant correct == CorrectCount(questions, answer.answers, i)
        invariant earned == EarnedPoints(questions, answer.answers, i)
      {
        var question := questions[i];
        if i in answer.answers && question.IsCorrect(answer.answers[i]) {
          correct := correct + 1;
          earned := earned + question.points;
        }
        i := i + 1;
      }
      var total := GetTotalPoints();
      r := QuizResult(quizId, answer.username, |questions|, correct, total, earned);
    }
  }

  /** While inactive a quiz is never expired and has no time left. */
  lemma InactiveQuiz(q: Quiz, now: int)
    requires !q.active
    ensures !q.IsExpired(now) && q.RemainingTime(now) == 0
  {
  }

  /** An expired quiz has no time left, as long as the duration is not negative and the
      elapsed seconds fit in an `int` (about 68 years). */
  lemma ExpiredMeansNoTimeLeft(q: Quiz, now: int)
    requires 0 <= q.duration <= IntMax
    requires IsInt32(q.Elapsed(now))
    requires q.IsExpired(now)
    ensures q.RemainingTime(now) == 0
  {
  }

  /** Before expiry the time left is the duration minus the elapsed seconds. */
  lemma RunningQuizTimeLeft(q: Quiz, now: int)
    requires 0 <= q.duration <= IntMax
    requires q.active && q.startTime <= now
    requires !q.IsExpired(now)
    ensures q.RemainingTime(now) == q.duration - q.Elapsed(now)
    ensures 0 <= q.RemainingTime(now) <= q.duration
  {
  }
}
