/**
 * The quiz session kept in `st.session_state` (frontend/app.py): the quiz
 * flags and progress, the answers given so far, the stored score and the
 * prediction records. Each button handler is a method; the branch of the
 * page that shows the button is its precondition.
 */
module QuizSession {
  import opened Wrappers
  import opened QuestionBank
  import opened QuizGenerator
  import opened IqScorer
  import opened Interpretation
  import opened RecordStore

  /** Two questions from each of the five sections. */
  const QuizLength: nat := 10

  class Session {
    var quizStarted: bool
    var quizQuestions: seq<QuizItem>
    var currentQuestion: nat
    var userAnswers: seq<int>
    var quizCompleted: bool
    var iqScore: Option<real>
    var testData: seq<Record>

    ghost predicate Valid()
      reads this
    {
      QuizValid() && RecordsValid()
    }

    /**
     * A completed quiz was started; a started quiz is a well-shaped draw from
     * the bank; while it runs, one answer has been given per question before
     * the current one; once completed, every question has its answer and the
     * stored score is the score of those answers.
     */
    ghost predicate QuizValid()
      reads this
    {
      && (quizCompleted ==> quizStarted)
      && (quizStarted ==> WellShapedQuiz(IqQuestions, quizQuestions))
      && (quizStarted && !quizCompleted ==> currentQuestion == |userAnswers| < |quizQuestions|)
      && (quizCompleted ==>
            && |userAnswers| == |quizQuestions|
            && currentQuestion == |quizQuestions| - 1
            && ScoreOf(userAnswers, quizQuestions).Success?
            && iqScore == Some(ScoreOf(userAnswers, quizQuestions).value.iq))
    }

    /** Every saved record holds a CGPA in [0, 10] and a score in [70, 160]. */
    ghost predicate RecordsValid()
      reads this
    {
      forall i :: 0 <= i < |testData| ==> 0.0 <= testData[i].cgpa <= 10.0 && MinIq <= testData[i].iq <= MaxIq
    }

    /** The defaults installed when a session first runs. */
    constructor ()
      ensures Valid()
      ensures !quizStarted && quizQuestions == [] && currentQuestion == 0 && userAnswers == []
      ensures !quizCompleted && iqScore == None && testData == []
    {
      quizStarted := false;
      quizQuestions := [];
      currentQuestion := 0;
      userAnswers := [];
      quizCompleted := false;
      iqScore := None;
      testData := [];
    }

    /**
     * "Start IQ Test": draw a fresh quiz and reset the progress; the old score
     * and the records stay. The button is shown only while no quiz is running.
     * It overwrites all quiz state, so it needs only the record invariant.
     */
    method StartTest(picks: seq<(nat, nat)>, swaps: seq<nat>)
      requires RecordsValid() && !quizStarted
      requires ValidPicks(IqQuestions, picks) && ValidSwaps(swaps, QuizLength)
      modifies this`quizStarted, this`quizQuestions, this`currentQuestion, this`userAnswers, this`quizCompleted
      ensures Valid()
      ensures quizStarted && quizQuestions == Generated(IqQuestions, picks, swaps) && |quizQuestions| == QuizLength
      ensures currentQuestion == 0 && userAnswers == [] && !quizCompleted
      ensures iqScore == old(iqScore) && testData == old(testData)
    {
      IqQuizShape(picks, swaps);
      quizStarted := true;
      quizQuestions := GenerateQuiz(IqQuestions, picks, swaps);
      currentQuestion := 0;
      userAnswers := [];
      quizCompleted := false;
    }

    /**
     * "Next Question": record the chosen option; move on, or after the last
     * question score the answers and mark the quiz completed.
     */
    method NextQuestion(answer: int)
      requires Valid() && quizStarted && !quizCompleted
      modifies this
      ensures Valid()
      ensures userAnswers == old(userAnswers) + [answer]
      ensures quizStarted && quizQuestions == old(quizQuestions) && testData == old(testData)
      ensures old(currentQuestion) < |quizQuestions| - 1 ==>
                currentQuestion == old(currentQuestion) + 1 && !quizCompleted && iqScore == old(iqScore)
      ensures old(currentQuestion) == |quizQuestions| - 1 ==>
                && currentQuestion == old(currentQuestion) && quizCompleted
                && |userAnswers| == |quizQuestions|
                && iqScore == Some(ScoreOf(userAnswers, quizQuestions).value.iq)
    {
      userAnswers := userAnswers + [answer];
      if currentQuestion < |quizQuestions| - 1 {
        currentQuestion := currentQuestion + 1;
      } else {
        var result := CalculateIq(userAnswers, quizQuestions);
        iqScore := Some(result.value.iq);
        quizCompleted := true;
      }
    }

    /**
     * The completed-quiz view: the score recomputed from the stored answers
     * equals the stored one, and the banner shown is the one of that score's band.
     */
    method ShowResults() returns (iq: real, correct: nat, band: Band, headline: string, summary: string)
      requires Valid() && quizCompleted
      ensures iqScore == Some(iq)
      ensures ScoreOf(userAnswers, quizQuestions) == Success(Score(iq, correct))
      ensures correct <= QuizLength && MinIq <= iq <= MaxIq
      ensures InBand(iq, band)
      ensures headline == Title(band) && summary == Summary(band)
    {
      IqQuestionsWellFormed();
      var result := CalculateIq(userAnswers, quizQuestions);
      iq, correct := result.value.iq, result.value.correct;
      band := Interpret(iq);
      headline, summary := Title(band), Summary(band);
    }

    /**
     * "Retake Test", shown only on a completed quiz: clear the flags and the
     * answers; the last quiz and score stay stored.
     */
    method RetakeTest()
      requires Valid() && quizCompleted
      modifies this
      ensures Valid()
      ensures !quizStarted && !quizCompleted && userAnswers == [] && currentQuestion == 0
      ensures quizQuestions == old(quizQuestions) && iqScore == old(iqScore) && testData == old(testData)
    {
      quizStarted := false;
      quizCompleted := false;
      userAnswers := [];
      currentQuestion := 0;
    }

    /**
     * "Predict My Placement": ask the predictor with the CGPA and the stored
     * score; when it answers, append one record of the request and the
     * answer; when it raises (`None`), keep the records as they were.
     */
    method PredictPlacement(cgpa: real, branch: string, year: string, status: string, timestamp: string,
                            predictor: (real, real) -> Option<Prediction>) returns (saved: bool)
      requires Valid() && quizCompleted
      requires 0.0 <= cgpa <= 10.0
      modifies this`testData
      ensures Valid()
      ensures saved == predictor(cgpa, iqScore.value).Some?
      ensures saved ==>
                var p := predictor(cgpa, iqScore.value).value;
                testData == old(testData) + [Record(cgpa, iqScore.value, branch, year, p.placement, p.confidence,
                                                    ActualPlacement(status), timestamp)]
      ensures !saved ==> testData == old(testData)
      ensures |testData| == |old(testData)| + (if saved then 1 else 0)
    {
      var outcome := predictor(cgpa, iqScore.value);
      if outcome.None? {
        return false;
      }
      var p := outcome.value;
      var testRecord := Record(cgpa, iqScore.value, branch, year, p.placement, p.confidence,
                               ActualPlacement(status), timestamp);
      testData := testData + [testRecord];
      saved := true;
    }

    /** The summary metrics of the results tab: the number of records and of predicted placements. */
    method Statistics() returns (total: nat, placed: int)
      requires Valid()
      ensures total == |testData| && placed == PredictedPlaced(testData)
      ensures BinaryPredictions(testData) ==> 0 <= placed <= total
    {
      total := |testData|;
      placed := PredictedPlaced(testData);
    }
  }

  /** Every quiz drawn from the shipped bank has ten items and is well shaped. */
  lemma IqQuizShape(picks: seq<(nat, nat)>, swaps: seq<nat>)
    requires ValidPicks(IqQuestions, picks) && ValidSwaps(swaps, QuizLength)
    ensures |IqQuestions| == 5 && ValidSwaps(swaps, 2 * |IqQuestions|)
    ensures WellShapedQuiz(IqQuestions, Generated(IqQuestions, picks, swaps))
    ensures |Generated(IqQuestions, picks, swaps)| == QuizLength
  {
    IqQuestionsWellFormed();
    GeneratedQuizShape(IqQuestions, picks, swaps);
  }

  /**
   * A reproducible draw: the first two questions of every section and a
   * shuffle that exchanges every position with itself. Answering option 0
   * everywhere gets only the easy verbal question right: 70 + 7 = 77.
   */
  lemma FixedDrawAllZeroAnswers()
    ensures var quiz := Generated(IqQuestions, [(0, 1), (0, 1), (0, 1), (0, 1), (0, 1)], [0, 1, 2, 3, 4, 5, 6, 7, 8, 9]);
            ScoreOf([0, 0, 0, 0, 0, 0, 0, 0, 0, 0], quiz) == Success(Score(77.0, 1))
  {
    var picks: seq<(nat, nat)> := [(0, 1), (0, 1), (0, 1), (0, 1), (0, 1)];
    var drawn := Drawn(IqQuestions, picks);
    SelfSwapsKeepOrder(drawn, [0, 1, 2, 3, 4, 5, 6, 7, 8, 9], 10);
    var key := [1, 1, 2, 2, 2, 1, 1, 0, 1, 3];
    forall k | 0 <= k < 10 ensures drawn[k].correct == key[k] {
      DrawnAt(IqQuestions, picks, k);
    }
    DrawnAt(IqQuestions, picks, 7);
    SingleCorrectAnswer([0, 0, 0, 0, 0, 0, 0, 0, 0, 0], drawn, 7);
  }

  /** Saving a prediction adds its outcome to the predicted-placed sum. */
  lemma PredictedPlacedAppend(records: seq<Record>, r: Record)
    ensures PredictedPlaced(records + [r]) == PredictedPlaced(records) + r.predictedPlacement
  {
  }
}
