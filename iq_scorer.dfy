/**
 * `calculate_iq` of frontend/app.py: answers are compared with the quiz by
 * position; each correct answer counts one and earns a difficulty bonus
 * (2 for hard, 1 for medium, 0 for easy); the score is
 * 70 + 70 * correct / len(questions) + bonus, clamped to [70, 160].
 *
 * Arithmetic is exact over `real`. The Python code's two crashes are error
 * values: indexing `questions[i]` past its end (more answers than questions)
 * and dividing by `len(questions)` when it is zero.
 */
module IqScorer {
  import opened Wrappers
  import opened QuestionBank

  /** The pair `(iq, correct_count)` that `calculate_iq` returns. */
  datatype Score = Score(iq: real, correct: nat)

  /** IndexError from `questions[i]`, ZeroDivisionError from `/ len(questions)`. */
  datatype ScoreError = IndexOutOfRange | DivisionByZero

  const MinIq: real := 70.0
  const MaxIq: real := 160.0

  /** The bonus a correct answer earns for its question's difficulty. */
  function Weight(d: Difficulty): nat
  {
    match d
    case Hard => 2
    case Medium => 1
    case Easy => 0
  }

  /** The number of answers that match their question's correct index. */
  function CorrectCount(answers: seq<int>, quiz: seq<QuizItem>): (c: nat)
    requires |answers| <= |quiz|
    ensures c <= |answers|
  {
    if |answers| == 0 then 0
    else
      var n := |answers| - 1;
      CorrectCount(answers[..n], quiz) + (if answers[n] == quiz[n].correct then 1 else 0)
  }

  /** The difficulty bonus summed over the correctly answered questions. */
  function Bonus(answers: seq<int>, quiz: seq<QuizItem>): (b: nat)
    requires |answers| <= |quiz|
    ensures b <= 2 * CorrectCount(answers, quiz)
  {
    if |answers| == 0 then 0
    else
      var n := |answers| - 1;
      Bonus(answers[..n], quiz) + (if answers[n] == quiz[n].correct then Weight(quiz[n].difficulty) else 0)
  }

  /** The score before clamping, with the source's percentage detour. */
  function RawIq(correct: nat, bonus: nat, n: nat): real
    requires n > 0
  {
    var baseScore := (correct as real / n as real) * 100.0;
    70.0 + (baseScore / 100.0) * 70.0 + bonus as real
  }

  /** `min(max(x, 70), 160)`. */
  function Clamp(x: real): (r: real)
    ensures MinIq <= r <= MaxIq
    ensures MinIq <= x <= MaxIq ==> r == x
  {
    var lower := if x >= 70.0 then x else 70.0;
    if lower <= 160.0 then lower else 160.0
  }

  /** What `calculate_iq(answers, quiz)` returns or raises. */
  function ScoreOf(answers: seq<int>, quiz: seq<QuizItem>): (r: Result<Score, ScoreError>)
    ensures r == Failure(IndexOutOfRange) <==> |answers| > |quiz|
    ensures r == Failure(DivisionByZero) <==> |answers| <= |quiz| == 0
    ensures r.Success? ==> MinIq <= r.value.iq <= MaxIq && r.value.correct <= |answers|
  {
    if |answers| > |quiz| then Failure(IndexOutOfRange)
    else if |quiz| == 0 then Failure(DivisionByZero)
    else
      var c := CorrectCount(answers, quiz);
      Success(Score(Clamp(RawIq(c, Bonus(answers, quiz), |quiz|)), c))
  }

  /** The positions below `n` whose answer matches the quiz's correct index. */
  function CorrectPositions(answers: seq<int>, quiz: seq<QuizItem>, n: nat): set<nat>
    requires n <= |answers| <= |quiz|
  {
    set i: nat | i < n && answers[i] == quiz[i].correct
  }

  /** The count is the number of positions `i` with `answers[i] == quiz[i].correct`. */
  lemma {:induction false} CorrectCountIsCorrectPositions(answers: seq<int>, quiz: seq<QuizItem>, n: nat)
    requires n <= |answers| <= |quiz|
    ensures CorrectCount(answers[..n], quiz) == |CorrectPositions(answers, quiz, n)|
  {
    if n > 0 {
      CorrectCountIsCorrectPositions(answers, quiz, n - 1);
      assert answers[..n][..n - 1] == answers[..n - 1];
      var before := CorrectPositions(answers, quiz, n - 1);
      if answers[n - 1] == quiz[n - 1].correct {
        assert CorrectPositions(answers, quiz, n) == before + {n - 1};
      } else {
        assert CorrectPositions(answers, quiz, n) == before;
      }
    }
  }

  /** With no matching answer the result is `(70, 0)`. */
  lemma NoCorrectAnswerScoresBase(answers: seq<int>, quiz: seq<QuizItem>)
    requires 0 < |quiz| && |answers| <= |quiz|
    requires forall i :: 0 <= i < |answers| ==> answers[i] != quiz[i].correct
    ensures ScoreOf(answers, quiz) == Success(Score(70.0, 0))
  {
    CorrectCountIsCorrectPositions(answers, quiz, |answers|);
    assert answers[..|answers|] == answers;
    assert CorrectPositions(answers, quiz, |answers|) == {};
  }

  /** With exactly one right answer, at `j`, the count is 1 and the bonus is that question's weight. */
  lemma {:induction false} SingleCorrectAnswer(answers: seq<int>, quiz: seq<QuizItem>, j: nat)
    requires |answers| <= |quiz| && j < |answers|
    requires forall i :: 0 <= i < |answers| ==> (answers[i] == quiz[i].correct <==> i == j)
    ensures CorrectCount(answers, quiz) == 1 && Bonus(answers, quiz) == Weight(quiz[j].difficulty)
  {
    var n := |answers| - 1;
    var pre := answers[..n];
    if j < n {
      SingleCorrectAnswer(pre, quiz, j);
    } else {
      CorrectCountIsCorrectPositions(pre, quiz, n);
      assert pre[..n] == pre;
      assert CorrectPositions(pre, quiz, n) == {};
    }
  }

  /** `better` is right wherever `worse` is right. */
  predicate Dominates(better: seq<int>, worse: seq<int>, quiz: seq<QuizItem>)
    requires |worse| == |better| <= |quiz|
  {
    forall i :: 0 <= i < |worse| && worse[i] == quiz[i].correct ==> better[i] == quiz[i].correct
  }

  lemma {:induction false} CountsMonotone(better: seq<int>, worse: seq<int>, quiz: seq<QuizItem>)
    requires |worse| == |better| <= |quiz| && Dominates(better, worse, quiz)
    ensures CorrectCount(worse, quiz) <= CorrectCount(better, quiz)
    ensures Bonus(worse, quiz) <= Bonus(better, quiz)
  {
    if |worse| > 0 {
      var n := |worse| - 1;
      CountsMonotone(better[..n], worse[..n], quiz);
    }
  }

  lemma RawIqMonotone(c1: nat, b1: nat, c2: nat, b2: nat, n: nat)
    requires n > 0 && c1 <= c2 && b1 <= b2
    ensures RawIq(c1, b1, n) <= RawIq(c2, b2, n)
  {
  }

  /** Answering more questions correctly never lowers the score, clamped or not. */
  lemma ScoreMonotone(better: seq<int>, worse: seq<int>, quiz: seq<QuizItem>)
    requires 0 < |quiz| && |worse| == |better| <= |quiz| && Dominates(better, worse, quiz)
    ensures RawIq(CorrectCount(worse, quiz), Bonus(worse, quiz), |quiz|)
         <= RawIq(CorrectCount(better, quiz), Bonus(better, quiz), |quiz|)
    ensures ScoreOf(worse, quiz).value.iq <= ScoreOf(better, quiz).value.iq
  {
    CountsMonotone(better, worse, quiz);
    RawIqMonotone(CorrectCount(worse, quiz), Bonus(worse, quiz), CorrectCount(better, quiz), Bonus(better, quiz), |quiz|);
  }

  /** The answer sheet that picks every question's correct option. */
  function AnswerKey(quiz: seq<QuizItem>): (key: seq<int>)
    ensures |key| == |quiz| && forall i :: 0 <= i < |quiz| ==> key[i] == quiz[i].correct
  {
    seq(|quiz|, i requires 0 <= i < |quiz| => quiz[i].correct)
  }

  /** All answers correct on an all-hard quiz: every answer counts and earns 2. */
  lemma {:induction false} AllHardAllCorrectCounts(answers: seq<int>, quiz: seq<QuizItem>)
    requires |answers| <= |quiz|
    requires forall i :: 0 <= i < |answers| ==> answers[i] == quiz[i].correct && quiz[i].difficulty == Hard
    ensures CorrectCount(answers, quiz) == |answers| && Bonus(answers, quiz) == 2 * |answers|
  {
    if |answers| > 0 {
      AllHardAllCorrectCounts(answers[..|answers| - 1], quiz);
    }
  }

  /**
   * No answer sheet beats the answer key; on a quiz of hard questions the key
   * scores 140 + 2 * len(quiz), capped at 160.
   */
  lemma AnswerKeyScoresHighest(answers: seq<int>, quiz: seq<QuizItem>)
    requires 0 < |quiz| && |answers| == |quiz|
    ensures ScoreOf(answers, quiz).value.iq <= ScoreOf(AnswerKey(quiz), quiz).value.iq
    ensures (forall i :: 0 <= i < |quiz| ==> quiz[i].difficulty == Hard) ==>
              ScoreOf(AnswerKey(quiz), quiz) == Success(Score(Clamp(140.0 + 2.0 * |quiz| as real), |quiz|))
  {
    ScoreMonotone(AnswerKey(quiz), answers, quiz);
    if forall i :: 0 <= i < |quiz| ==> quiz[i].difficulty == Hard {
      AllHardAllCorrectCounts(AnswerKey(quiz), quiz);
      RawIqAllCorrect(|quiz|);
    }
  }

  lemma RawIqAllCorrect(n: nat)
    requires n > 0
    ensures RawIq(n, 2 * n, n) == 140.0 + 2.0 * n as real
  {
    assert n as real / n as real == 1.0;
  }

  /**
   * On a quiz of ten questions the score is the whole number
   * 70 + 7 * correct + bonus capped at 160, so `round(iq, 1)` leaves it unchanged.
   */
  lemma TenQuestionScoreIsWhole(answers: seq<int>, quiz: seq<QuizItem>)
    requires |quiz| == 10 && |answers| <= 10
    ensures var c, b := CorrectCount(answers, quiz), Bonus(answers, quiz);
            var whole := 70 + 7 * c + b;
            ScoreOf(answers, quiz) == Success(Score((if whole <= 160 then whole else 160) as real, c))
  {
  }

  /** The loop of `calculate_iq`, accumulating the count and the bonus. */
  method CalculateIq(answers: seq<int>, questions: seq<QuizItem>) returns (r: Result<Score, ScoreError>)
    ensures r == ScoreOf(answers, questions)
  {
    var correctCount := 0;
    var difficultyBonus := 0;
    var i := 0;
    while i < |answers|
      invariant 0 <= i <= |answers| && i <= |questions|
      invariant correctCount == CorrectCount(answers[..i], questions)
      invariant difficultyBonus == Bonus(answers[..i], questions)
    {
      if i >= |questions| {
        return Failure(IndexOutOfRange);
      }
      assert answers[..i + 1][..i] == answers[..i];
      if answers[i] == questions[i].correct {
        correctCount := correctCount + 1;
        if questions[i].difficulty == Hard {
          difficultyBonus := difficultyBonus + 2;
        } else if questions[i].difficulty == Medium {
          difficultyBonus := difficultyBonus + 1;
        }
      }
      i := i + 1;
    }
    assert answers[..i] == answers;
    if |questions| == 0 {
      return Failure(DivisionByZero);
    }
    var baseScore := (correctCount as real / |questions| as real) * 100.0;
    var iq := 70.0 + (baseScore / 100.0) * 70.0 + difficultyBonus as real;
    iq := if iq >= 70.0 then iq else 70.0;
    iq := if iq <= 160.0 then iq else 160.0;
    r := Success(Score(iq, correctCount));
  }
}
