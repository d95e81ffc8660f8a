# IQ quiz and placement predictor: a verified model of the quiz core

This project models the decision logic of the Streamlit application in
`frontend/app.py`:

- the static IQ question bank (five sections of five questions);
- the quiz generator, which draws two questions per section, tags them with
  their section and shuffles the list;
- the IQ scorer, which counts correct answers, adds a difficulty bonus and
  clamps the score to [70, 160];
- the session state: the quiz flags and progress, the answers, the stored
  score, and the append-only list of prediction records;
- the reads derived from that state: the score interpretation bands, the
  record count and the number of predicted placements.

Modules, one per component:

- `Wrappers` (`wrappers.dfy`): `Option`, standing for Python's `None`, and
  `Result`, for a value or a raised error.
- `QuestionBank` (`question_bank.dfy`): the bank data `IQ_QUESTIONS`, the
  quiz item type, and the bank invariant.
- `QuizGenerator` (`quiz_generator.dfy`): `generate_quiz` as a method with two
  loops. It is proved equal to the specification function `Generated`, and the
  lemmas prove its structural guarantees.
- `IqScorer` (`iq_scorer.dfy`): `calculate_iq` as a loop method proved equal
  to the specification function `ScoreOf`, with lemmas about `ScoreOf`.
- `Interpretation` (`interpretation.dfy`): the if/elif score bands.
- `RecordStore` (`record_store.dfy`): the prediction record, the mapping from
  placement status to `actual_placement`, and the predicted-placed sum.
- `QuizSession` (`session.dfy`): class `Session`, standing for
  `st.session_state`. Each button handler is a method. The page branch that
  shows the button becomes the method's precondition.

How the model handles what the program does not control:

- Randomness is passed in as arguments. `picks[s]` is the pair of distinct
  indices that `random.sample(questions, 2)` returns for section `s`.
- `swaps[i] <= i` is the index that the Fisher-Yates pass of `random.shuffle`
  exchanges with position `i`. Every permutation can be produced this way.
- The placement predictor is a function parameter `(cgpa, iq) -> Option<Prediction>`.
  `None` stands for a raised exception.
- The timestamp is a parameter.
- Arithmetic is exact over `real`.

Checking answers against the quiz:

- The code does not check that the answer list is as long as the quiz, and it
  has no "misaligned answers" error. The model keeps that behaviour.
- A shorter list is scored over its own positions.
- A longer list raises IndexError, and the model returns `Failure(IndexOutOfRange)`.
- An empty quiz raises ZeroDivisionError, and the model returns
  `Failure(DivisionByZero)`.
- The session only ever scores a full answer list (`Session.NextQuestion`), so
  these cases never arise in the session.

## Model

| member | source | states |
|---|---|---|
| QuestionBank.IqQuestionsWellFormed | frontend/app.py:58-219 | the bank has 5 sections of 5 questions each, distinct section names, distinct prompts in each section, 4 options per question and a correct index inside the options |
| QuizGenerator.Drawn | frontend/app.py:240-249 | the list before shuffling has exactly two items per section |
| QuizGenerator.DrawnAt | frontend/app.py:240-249 | item `k` before shuffling is pick `k % 2` of section `k / 2`: the bank question's text, options, correct index and difficulty, copied unchanged and tagged with that section |
| QuizGenerator.DrawnSectionCount | frontend/app.py:240-249 | before shuffling, a section name occurs exactly twice if it is a bank section and never otherwise |
| QuizGenerator.DrawnDistinct | frontend/app.py:241-249 | since `random.sample` draws two different questions, no question occurs twice before shuffling |
| QuizGenerator.SwapPreserves | frontend/app.py:250 | one shuffle exchange keeps the multiset of items, the multiset of section tags and distinctness |
| QuizGenerator.ShufflePreserves | frontend/app.py:250 | the whole shuffle keeps the length, the multiset of items, the multiset of section tags and distinctness |
| QuizGenerator.SelfSwapsKeepOrder | frontend/app.py:250 | a shuffle that exchanges every position with itself leaves the drawn order unchanged |
| QuizGenerator.GeneratedQuizShape | frontend/app.py:237-251 | for all random choices, the quiz holds exactly the drawn items (as a multiset) and has 2 × sections items; each is a bank question copied unchanged under its own section; each section appears exactly twice; no question repeats |
| QuizGenerator.GenerateQuiz | frontend/app.py:237-251 | the append loop and the in-place shuffle return `Generated(bank, picks, swaps)`; on a well-formed bank the result has the shape above |
| IqScorer.CorrectCount | frontend/app.py:255-260 | the number of correct answers is at most the number of answers |
| IqScorer.Bonus | frontend/app.py:256-265 | the difficulty bonus is at most twice the number of correct answers |
| IqScorer.Clamp | frontend/app.py:276 | `min(max(x, 70), 160)` lies in [70, 160] and leaves values already in that range unchanged |
| IqScorer.ScoreOf | frontend/app.py:253-278 | IndexError exactly when there are more answers than questions; ZeroDivisionError exactly when the quiz is empty and no answer runs past it; otherwise the score lies in [70, 160] and the correct count in [0, len(answers)] |
| IqScorer.CorrectCountIsCorrectPositions | frontend/app.py:258-260 | the correct count equals the number of positions `i` with `answers[i] == questions[i]["correct"]` |
| IqScorer.NoCorrectAnswerScoresBase | frontend/app.py:258-278 | if no answer matches, the result is `(70, 0)` |
| IqScorer.SingleCorrectAnswer | frontend/app.py:258-265 | with exactly one right answer, the count is 1 and the bonus is that question's difficulty weight |
| IqScorer.CountsMonotone | frontend/app.py:258-265 | an answer sheet that is right wherever another is right has at least its correct count and at least its bonus |
| IqScorer.RawIqMonotone | frontend/app.py:268-275 | the unclamped formula does not decrease when the correct count or the bonus grows |
| IqScorer.ScoreMonotone | frontend/app.py:258-276 | answering more questions correctly never lowers the score, unclamped or clamped |
| IqScorer.AllHardAllCorrectCounts | frontend/app.py:259-263 | correct answers on hard questions each count 1 and earn 2 |
| IqScorer.RawIqAllCorrect | frontend/app.py:268-275 | with all `n` answers right and bonus `2n`, the unclamped score is `140 + 2n` |
| IqScorer.AnswerKeyScoresHighest | frontend/app.py:253-278 | no answer sheet scores above the answer key; on an all-hard quiz of `n` questions the key scores `min(140 + 2n, 160)` with `n` correct |
| IqScorer.TenQuestionScoreIsWhole | frontend/app.py:268-278 | on a ten-question quiz the score is the whole number `min(70 + 7 * correct + bonus, 160)`, so rounding to one decimal changes nothing |
| IqScorer.CalculateIq | frontend/app.py:253-278 | the accumulator loop returns exactly `ScoreOf(answers, questions)`; the same inputs always give the same result |
| Interpretation.Interpret | frontend/app.py:414-431 | the top-down chain picks a band whose interval `[threshold, next threshold)` holds the score |
| Interpretation.BandsPartition | frontend/app.py:414-431 | the chain selects band `b` if and only if the score lies in `b`'s interval, so the bands partition the scores |
| Interpretation.InterpretMonotone | frontend/app.py:414-431 | a higher score never gets a lower band |
| Interpretation.BannerIdentifiesBand | frontend/app.py:414-431 | the six banners have pairwise different headlines and pairwise different explanations, so the text shown determines the band |
| RecordStore.ActualPlacement | frontend/app.py:549 | `actual_placement` is 1 exactly for "Placed", 0 exactly for "Not Placed", and None for any other status |
| RecordStore.StatusRoundTrip | frontend/app.py:489-492 | on the three radio choices, the status can be recovered from the stored `actual_placement` |
| RecordStore.PredictedPlaced | frontend/app.py:585 | with 0/1 predictions, the predicted-placed sum lies between 0 and the number of records |
| RecordStore.PredictedPlacedCountsPlaced | frontend/app.py:585 | with 0/1 predictions, the sum equals the number of records predicted as placed |
| QuizSession.Session.constructor | frontend/app.py:221-235 | the initial session: not started, no questions, question 0, no answers, not completed, no score, no records |
| QuizSession.Session.StartTest | frontend/app.py:322-346 | offered only while no quiz is started; Start stores the generated quiz (ten items), resets the question to 0, clears the answers and the completed flag, and keeps the score and the records |
| QuizSession.Session.NextQuestion | frontend/app.py:376-390 | Next appends exactly one answer; before the last question it advances the index and stays below the quiz length; on the last question it sets completed, with as many answers as questions, and stores their score |
| QuizSession.Session.ShowResults | frontend/app.py:392-431 | on a completed quiz, the recomputed score equals the stored one, the correct count is at most 10, the band shown is the band of that score, and the banner shows that band's headline and explanation |
| QuizSession.Session.RetakeTest | frontend/app.py:392-444 | offered only on a completed quiz; Retake clears the started and completed flags and the answers and resets the question to 0; the last quiz, the score and the records stay |
| QuizSession.Session.PredictPlacement | frontend/app.py:496-558 | the predictor gets the CGPA and the stored score; when it returns, exactly one record of the request and the result is appended; when it raises, the records are unchanged |
| QuizSession.Session.Statistics | frontend/app.py:576-586 | the total is the number of records and the placed figure is their prediction sum, at most the total when predictions are 0/1 |
| QuizSession.IqQuizShape | frontend/app.py:237-251 | every quiz drawn from the shipped bank has ten items and the generator's structural guarantees |
| QuizSession.FixedDrawAllZeroAnswers | frontend/app.py:237-278 | drawing the first two questions of each section with no exchanges and answering option 0 everywhere scores exactly `(77, 1)` |
| QuizSession.PredictedPlacedAppend | frontend/app.py:553 | saving a record adds its predicted outcome to the predicted-placed sum |

## Left out

- Streamlit rendering is not modelled: page config, CSS, tabs, columns, widgets, progress bar, `st.rerun`, and the emoji, bold markup and colours of the banners. These are presentation; the banners' headline and explanation text is modelled.
- The "Continue to Placement Prediction" button (frontend/app.py:447-449) only shows a message and changes no state.
- `backend/tools.py` is not part of this model. `predict_placement` is a function parameter: `None` stands for any exception raised before the record is appended, `Some` for a returned triple.
- Recommendations that depend on the predictor's key factor are display text and are not modelled.
- pandas DataFrames, the CSV download, the matplotlib plots and the average CGPA and average IQ metrics are library calls over the records and are not modelled.
- `datetime.now()` is I/O; the timestamp is a parameter.
- The statistical distribution of `random.sample` and `random.shuffle` is not modelled. Any valid choice of indices and exchanges is accepted.
- CalculateIq: returns the exact real score and does not model `round(iq, 1)` or floating-point error. `IqScorer.TenQuestionScoreIsWhole` shows the score is whole for the ten-question quiz, so rounding cannot change it there.
- Difficulty is a closed type `Easy | Medium | Hard`, not a string. The bank uses only these three values, and any other string would earn no bonus, as `Easy` does.
- Answers are any integers. The radio only offers indices 0 to 3, but the scorer does not depend on that.
- The branch and year choices are free strings. Their select boxes are presentation.
